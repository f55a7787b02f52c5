/**
  Checkpoint file names and the string tests the checkpoint code performs on them:
  `name + '_at_epoch_' + str(epoch) + '.pt'`, Python's `str` on integers,
  substring containment (`name in path`) and the `*.pt` glob filter.
 */
module Naming {

  function Digit(d: nat): (c: char)
    requires d < 10
    ensures '0' <= c <= '9'
    ensures c as int - '0' as int == d
  {
    ('0' as int + d) as char
  }

  /** Decimal digits of `n` without leading zeros, as Python's `str` prints a non-negative int. */
  function NatToString(n: nat): string
    decreases n
  {
    if n < 10 then [Digit(n)] else NatToString(n / 10) + [Digit(n % 10)]
  }

  /** The decimal form of `n` is all digits, and has two or more of them from ten on. */
  lemma {:induction false} NatToStringDigits(n: nat)
    ensures |NatToString(n)| >= 1
    ensures forall k :: 0 <= k < |NatToString(n)| ==> '0' <= NatToString(n)[k] <= '9'
    ensures n >= 10 ==> |NatToString(n)| >= 2
    decreases n
  {
    if n >= 10 {
      NatToStringDigits(n / 10);
    }
  }

  /** Python's `str` on an int: a minus sign before the digits of a negative value. */
  function IntToString(i: int): string
  {
    if i < 0 then "-" + NatToString(-i) else NatToString(i)
  }

  lemma {:induction false} NatToStringInjective(a: nat, b: nat)
    requires NatToString(a) == NatToString(b)
    ensures a == b
    decreases a
  {
    var sa, sb := NatToString(a), NatToString(b);
    NatToStringDigits(a);
    NatToStringDigits(b);
    if a < 10 && b < 10 {
      assert Digit(a) == sa[0] == Digit(b);
    } else if a >= 10 && b >= 10 {
      assert sa[..|sa| - 1] == NatToString(a / 10);
      assert sb[..|sb| - 1] == NatToString(b / 10);
      NatToStringInjective(a / 10, b / 10);
      assert Digit(a % 10) == sa[|sa| - 1] == Digit(b % 10);
    }
  }

  /** Only negative values print with a leading minus sign. */
  lemma IntToStringSign(i: int)
    ensures |IntToString(i)| >= 1 && (IntToString(i)[0] == '-' <==> i < 0)
  {
    if i >= 0 {
      NatToStringDigits(i);
      assert '0' <= NatToString(i)[0] <= '9';
    } else {
      NatToStringDigits(-i);
    }
  }

  /** Different epochs print differently. */
  lemma IntToStringInjective(a: int, b: int)
    requires IntToString(a) == IntToString(b)
    ensures a == b
  {
    var sa, sb := IntToString(a), IntToString(b);
    IntToStringSign(a);
    IntToStringSign(b);
    if a < 0 && b < 0 {
      assert sa[1..] == NatToString(-a);
      assert sb[1..] == NatToString(-b);
      NatToStringInjective(-a, -b);
    } else if a >= 0 && b >= 0 {
      NatToStringInjective(a, b);
    }
  }

  /** The file a checkpoint of series `name` at `epoch` is saved under. */
  function FileName(name: string, epoch: int): string
  {
    name + "_at_epoch_" + IntToString(epoch) + ".pt"
  }

  /** A series file starts with the series name and ends in `.pt`. */
  lemma FileNameShape(name: string, epoch: int)
    ensures var f := FileName(name, epoch);
      |f| > |name| + 3 && f[|f| - 3..] == ".pt" && f[..|name|] == name
  {
  }

  /** Two files of one series differ as soon as their epochs do. */
  lemma FileNameInjective(name: string, a: int, b: int)
    requires FileName(name, a) == FileName(name, b)
    ensures a == b
  {
    var p := name + "_at_epoch_";
    var sa, sb := IntToString(a), IntToString(b);
    assert FileName(name, a) == p + sa + ".pt";
    assert FileName(name, b) == p + sb + ".pt";
    assert |sa| == |sb|;
    assert sa == (p + sa + ".pt")[|p|..|p| + |sa|];
    assert sb == (p + sb + ".pt")[|p|..|p| + |sb|];
    IntToStringInjective(a, b);
  }

  /** Files of two series whose names differ at some position never coincide. */
  lemma FileNamesOfDistinctSeries(n1: string, n2: string, i: nat, a: int, b: int)
    requires i < |n1| && i < |n2| && n1[i] != n2[i]
    ensures FileName(n1, a) != FileName(n2, b)
  {
    FileNameShape(n1, a);
    FileNameShape(n2, b);
    assert FileName(n1, a)[..|n1|][i] == n1[i];
    assert FileName(n2, b)[..|n2|][i] == n2[i];
  }

  /** `f` is a file of the series `name`, at some epoch. */
  ghost predicate InSeries(f: string, name: string)
  {
    exists e: int :: f == FileName(name, e)
  }

  /** The files of series `name` present in a folder. */
  ghost function SeriesFiles<V>(files: map<string, V>, name: string): set<string>
  {
    set f | f in files && InSeries(f, name)
  }

  /** Python's `needle in hay` on strings. */
  predicate Contains(hay: string, needle: string)
  {
    exists i | 0 <= i <= |hay| - |needle| :: OccursAt(hay, needle, i)
  }

  predicate OccursAt(hay: string, needle: string, i: nat)
  {
    i + |needle| <= |hay| && hay[i..i + |needle|] == needle
  }

  /** `str(folder / fname)`: the path glob reports for a file of a folder. */
  function PathOf(dirPath: string, fname: string): string
  {
    dirPath + "/" + fname
  }

  /** The names the glob pattern `*.pt` matches: a `.pt` suffix and no leading dot. */
  predicate IsPtName(f: string)
  {
    |f| >= 3 && f[|f| - 3..] == ".pt" && f[0] != '.'
  }

  /** A file of a series is listed by the `*.pt` glob unless the series name starts with a dot. */
  lemma FileNameIsPtName(name: string, epoch: int)
    requires |name| > 0 ==> name[0] != '.'
    ensures IsPtName(FileName(name, epoch))
  {
    var f := FileName(name, epoch);
    FileNameShape(name, epoch);
    if |name| == 0 {
      assert f[0] == '_';
    } else {
      assert f[..|name|][0] == name[0];
    }
  }

  /** The path of a series file contains the series name. */
  lemma PathOfFileNameContains(dirPath: string, name: string, epoch: int)
    ensures Contains(PathOf(dirPath, FileName(name, epoch)), name)
  {
    var p := PathOf(dirPath, FileName(name, epoch));
    var i := |dirPath| + 1;
    FileNameShape(name, epoch);
    assert p == dirPath + "/" + FileName(name, epoch);
    assert p[i..i + |name|] == FileName(name, epoch)[..|name|];
    assert OccursAt(p, name, i);
  }
}
