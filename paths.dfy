/**
 * The path and file-name strings the dataset loaders build: POSIX
 * `os.path.join` and `os.path.basename`, and the clip name
 * `f"clip_{index:05}.wav"` of the CSV loader.
 */
module Paths {

  /** `os.path.join(dir, name)` on POSIX: an absolute `name` discards `dir`. */
  function JoinPath(dir: string, name: string): (p: string)
    ensures |name| > 0 && name[0] == '/' ==> p == name
    ensures (|name| == 0 || name[0] != '/') ==>
              |p| >= |dir| + |name| && p[..|dir|] == dir && p[|p| - |name|..] == name &&
              (|p| > |dir| + |name| <==> dir != [] && dir[|dir| - 1] != '/') &&
              (|p| > |dir| + |name| ==> |p| == |dir| + |name| + 1 && p[|dir|] == '/')
  {
    if |name| > 0 && name[0] == '/' then name
    else if dir == [] || dir[|dir| - 1] == '/' then dir + name
    else dir + "/" + name
  }

  /** `os.path.basename(p)` on POSIX: everything after the last `/`. */
  function BaseName(p: string): (b: string)
    ensures |b| <= |p| && b == p[|p| - |b|..]
    ensures '/' !in b
    ensures |b| < |p| ==> p[|p| - |b| - 1] == '/'
  {
    if p == [] || p[|p| - 1] == '/' then []
    else BaseName(p[..|p| - 1]) + [p[|p| - 1]]
  }

  /** The base name of a string without `/` is that string. */
  lemma {:induction false} BaseNameOfPlainName(name: string)
    requires '/' !in name
    ensures BaseName(name) == name
  {
    if name != [] {
      BaseNameOfPlainName(name[..|name| - 1]);
    }
  }

  /** Unfolds `BaseName` once on a path that does not end in `/`. */
  lemma BaseNameStep(p: string)
    requires p != [] && p[|p| - 1] != '/'
    ensures BaseName(p) == BaseName(p[..|p| - 1]) + [p[|p| - 1]]
  {
  }

  /** The base name of a path ending in `/` followed by `tail` is the base name of `tail`. */
  lemma {:induction false} BaseNameAfterSlash(head: string, tail: string)
    requires |head| > 0 && head[|head| - 1] == '/'
    ensures BaseName(head + tail) == BaseName(tail)
  {
    var p := head + tail;
    if tail == [] {
      assert p == head;
    } else {
      var last := tail[|tail| - 1];
      assert p[|p| - 1] == last;
      assert p[..|p| - 1] == head + tail[..|tail| - 1];
      BaseNameAfterSlash(head, tail[..|tail| - 1]);
      if last != '/' {
        BaseNameStep(p);
        BaseNameStep(tail);
      }
    }
  }

  /**
   * Looking a joined path up by its base name finds the name that was joined
   * onto the directory, whatever the directory.
   */
  lemma BaseNameOfJoin(dir: string, name: string)
    ensures BaseName(JoinPath(dir, name)) == BaseName(name)
    ensures '/' !in name ==> BaseName(JoinPath(dir, name)) == name
  {
    if '/' !in name {
      BaseNameOfPlainName(name);
    }
    if |name| > 0 && name[0] == '/' {
    } else if dir == [] {
      assert dir + name == name;
    } else if dir[|dir| - 1] == '/' {
      BaseNameAfterSlash(dir, name);
    } else {
      assert dir + "/" + name == (dir + "/") + name;
      BaseNameAfterSlash(dir + "/", name);
    }
  }

  // ---- decimal formatting of the clip index ----

  function DigitChar(d: nat): char
    requires d < 10
  {
    "0123456789"[d]
  }

  function DigitValue(c: char): nat {
    if '0' <= c <= '9' then (c as int - '0' as int) as nat else 0
  }

  function Max(a: nat, b: nat): nat {
    if a < b then b else a
  }

  /** `str(n)` for a natural number: its decimal digits without leading zeros. */
  function Decimal(n: nat): (s: string)
    ensures |s| > 0
    ensures forall k :: 0 <= k < |s| ==> '0' <= s[k] <= '9'
    decreases n
  {
    if n < 10 then [DigitChar(n)] else Decimal(n / 10) + [DigitChar(n % 10)]
  }

  /** `str(n)` has no leading zero, except for zero itself. */
  lemma {:induction false} DecimalNoLeadingZero(n: nat)
    ensures Decimal(n)[0] == '0' <==> n == 0
    decreases n
  {
    if n >= 10 {
      DecimalNoLeadingZero(n / 10);
      assert Decimal(n)[0] == Decimal(n / 10)[0];
    }
  }

  /** The value of a string of decimal digits. */
  function ParseDecimal(s: string): nat {
    if s == [] then 0 else ParseDecimal(s[..|s| - 1]) * 10 + DigitValue(s[|s| - 1])
  }

  function Zeros(k: nat): (s: string)
    ensures |s| == k && forall j :: 0 <= j < k ==> s[j] == '0'
  {
    if k == 0 then [] else Zeros(k - 1) + "0"
  }

  /** Left-pads `s` with zeros to width `w` (format spec `0w`). */
  function ZeroPad(s: string, w: nat): (p: string)
    ensures |p| == if |s| < w then w else |s|
  {
    if |s| < w then Zeros(w - |s|) + s else s
  }

  /** Padding only puts zeros in front of the digits. */
  lemma ZeroPadShape(s: string, w: nat)
    ensures var p := ZeroPad(s, w);
            p[|p| - |s|..] == s && forall j :: 0 <= j < |p| - |s| ==> p[j] == '0'
  {
  }

  /**
   * Python's `format(n, '05')` for an int: width 5 with zero fill after the
   * sign, so `-3` becomes `-0003`; longer numbers are not cut.
   */
  function FormatIndex(n: int): (s: string)
    ensures |s| >= 5
  {
    if n < 0 then "-" + ZeroPad(Decimal(-n), 4) else ZeroPad(Decimal(n), 5)
  }

  /**
   * The formatted index is a minus sign exactly for a negative index, and
   * decimal digits otherwise; it is exactly five characters wide unless the
   * number needs more, and then its digits start with a non-zero one.
   */
  lemma FormatIndexShape(n: int)
    ensures var s := FormatIndex(n);
            (s[0] == '-' <==> n < 0) &&
            (forall k :: (if n < 0 then 1 else 0) <= k < |s| ==> '0' <= s[k] <= '9') &&
            |s| == (if n < 0 then 1 + Max(4, |Decimal(-n)|) else Max(5, |Decimal(n)|)) &&
            (|s| == 5 || s[if n < 0 then 1 else 0] != '0')
  {
    var d := Decimal(if n < 0 then -n else n);
    var p := ZeroPad(d, if n < 0 then 4 else 5);
    ZeroPadShape(d, if n < 0 then 4 else 5);
    if |p| > (if n < 0 then 4 else 5) {
      DecimalNoLeadingZero(if n < 0 then -n else n);
      assert p == d;
    }
    assert forall k :: 0 <= k < |p| ==> '0' <= p[k] <= '9' by {
      forall k | 0 <= k < |p|
        ensures '0' <= p[k] <= '9'
      {
        if k >= |p| - |d| {
          assert p[k] == p[|p| - |d|..][k - (|p| - |d|)];
        }
      }
    }
  }

  /** `f"clip_{index:05}.wav"`: the formatted index between `clip_` and `.wav`. */
  function ClipFileName(index: int): (name: string)
    ensures |name| >= 14 && name[..5] == "clip_" && name[|name| - 4..] == ".wav"
    ensures name[5..|name| - 4] == FormatIndex(index)
  {
    "clip_" + FormatIndex(index) + ".wav"
  }

  /** Reads an index back from its formatted text. */
  function ParseIndex(s: string): int {
    if |s| > 0 && s[0] == '-' then -(ParseDecimal(s[1..]) as int) else ParseDecimal(s)
  }

  /** Reads the index back out of a clip file name. */
  function ClipIndex(name: string): int {
    if |name| >= 9 then ParseIndex(name[5..|name| - 4]) else 0
  }

  lemma {:induction false} DecimalRoundTrip(n: nat)
    ensures ParseDecimal(Decimal(n)) == n
    decreases n
  {
    if n >= 10 {
      DecimalRoundTrip(n / 10);
      var s := Decimal(n);
      assert s[..|s| - 1] == Decimal(n / 10);
    }
  }

  lemma {:induction false} LeadingZerosIgnored(k: nat, s: string)
    ensures ParseDecimal(Zeros(k) + s) == ParseDecimal(s)
    decreases |s|, k
  {
    if s == [] {
      assert Zeros(k) + s == Zeros(k);
      if k > 0 {
        assert Zeros(k)[..k - 1] == Zeros(k - 1);
        LeadingZerosIgnored(k - 1, []);
        assert Zeros(k - 1) + [] == Zeros(k - 1);
      }
    } else {
      var t := Zeros(k) + s;
      assert t[..|t| - 1] == Zeros(k) + s[..|s| - 1];
      LeadingZerosIgnored(k, s[..|s| - 1]);
    }
  }

  lemma PadRoundTrip(n: nat, w: nat)
    ensures ParseDecimal(ZeroPad(Decimal(n), w)) == n
  {
    DecimalRoundTrip(n);
    if |Decimal(n)| < w {
      LeadingZerosIgnored(w - |Decimal(n)|, Decimal(n));
    }
  }

  lemma NegativeIndexRoundTrip(index: int)
    requires index < 0
    ensures ParseIndex(FormatIndex(index)) == index
  {
    var n: nat := -index;
    var p := ZeroPad(Decimal(n), 4);
    PadRoundTrip(n, 4);
    var f := "-" + p;
    assert f[1..] == p;
    calc {
      ParseIndex(FormatIndex(index));
      { assert FormatIndex(index) == f; }
      ParseIndex(f);
      -(ParseDecimal(p) as int);
    }
  }

  lemma NonNegativeIndexRoundTrip(index: nat)
    ensures ParseIndex(FormatIndex(index)) == index
  {
    var d := Decimal(index);
    var p := ZeroPad(d, 5);
    assert FormatIndex(index) == p;
    assert p[0] != '-' by {
      if |d| < 5 {
        assert p[0] == Zeros(5 - |d|)[0];
      } else {
        assert p[0] == d[0];
      }
    }
    PadRoundTrip(index, 5);
    assert ParseIndex(p) == ParseDecimal(p);
  }

  /** The index can be read back from the clip name, so distinct rows name distinct clips. */
  lemma ClipFileNameRoundTrip(index: int)
    ensures ClipIndex(ClipFileName(index)) == index
  {
    var f := FormatIndex(index);
    var name := ClipFileName(index);
    assert name[5..|name| - 4] == f;
    if index < 0 {
      NegativeIndexRoundTrip(index);
    } else {
      NonNegativeIndexRoundTrip(index);
    }
  }

  lemma ClipFileNameInjective(i: int, j: int)
    requires ClipFileName(i) == ClipFileName(j)
    ensures i == j
  {
    ClipFileNameRoundTrip(i);
    ClipFileNameRoundTrip(j);
  }

  lemma ClipFileNameExamples()
    ensures ClipFileName(7) == "clip_00007.wav"
    ensures ClipFileName(-3) == "clip_-0003.wav"
  {
    assert Zeros(3) == "000";
    assert Zeros(4) == "0000";
  }
}
