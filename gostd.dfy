/**
 * Reference definitions of the Go standard-library functions the client calls: strings.Join,
 * path.Join with the path.Clean it applies, and the decimal rendering of an int by the %d
 * verb, each written from the documented Go semantics. Split (at a single character) is not
 * called by the client; it defines path.Clean's element processing and states the round
 * trip of joining with "/".
 */
module GoStd {
  import opened Wrappers

  /** strings.Join: the parts with `sep` between neighbours; "" for no parts. */
  function Join(parts: seq<string>, sep: string): string
  {
    if |parts| == 0 then ""
    else if |parts| == 1 then parts[0]
    else parts[0] + sep + Join(parts[1..], sep)
  }

  lemma JoinSingle(part: string, sep: string)
    ensures Join([part], sep) == part
  {
  }

  lemma JoinCons(head: string, tail: seq<string>, sep: string)
    requires |tail| >= 1
    ensures Join([head] + tail, sep) == head + sep + Join(tail, sep)
  {
    assert ([head] + tail)[1..] == tail;
  }

  /**
   * The maximal pieces of `s` between occurrences of `sep`, as strings.Split(s, string(sep))
   * gives them. There is always at least one piece ("" splits into [""]) and no piece
   * contains `sep` (SplitPiecesAvoidSep).
   */
  function Split(s: string, sep: char): (parts: seq<string>)
    ensures |parts| >= 1
    decreases |s|
  {
    if |s| == 0 then [""] else Prepend(s[0], sep, Split(s[1..], sep))
  }

  /** Puts `c` in front of split pieces: a separator opens a new, empty first piece. */
  function Prepend(c: char, sep: char, parts: seq<string>): (r: seq<string>)
    requires |parts| >= 1
    ensures |r| >= 1
  {
    if c == sep then [""] + parts else [[c] + parts[0]] + parts[1..]
  }

  lemma PrependAppend(c: char, sep: char, head: seq<string>, tail: seq<string>)
    requires |head| >= 1
    ensures Prepend(c, sep, head + tail) == Prepend(c, sep, head) + tail
  {
    if c != sep {
      assert (head + tail)[1..] == head[1..] + tail;
    }
  }

  /** No piece of a split holds the separator. */
  lemma {:induction false} SplitPiecesAvoidSep(s: string, sep: char)
    ensures forall i :: 0 <= i < |Split(s, sep)| ==> sep !in Split(s, sep)[i]
    decreases |s|
  {
    if |s| > 0 {
      SplitPiecesAvoidSep(s[1..], sep);
      var rest := Split(s[1..], sep);
      if s[0] != sep {
        assert sep !in [s[0]] + rest[0];
      }
    }
  }

  lemma {:induction false} SplitWithoutSep(s: string, sep: char)
    requires sep !in s
    ensures Split(s, sep) == [s]
    decreases |s|
  {
    if |s| > 0 {
      SplitWithoutSep(s[1..], sep);
      assert [s[0]] + s[1..] == s;
    }
  }

  /** Split on a string with a known first character. */
  lemma SplitCons(c: char, t: string, sep: char)
    ensures Split([c] + t, sep) == Prepend(c, sep, Split(t, sep))
  {
    var s := [c] + t;
    assert s[0] == c && s[1..] == t;
  }

  /** Splitting at a separator splits the two sides independently. */
  lemma {:induction false} SplitAround(a: string, sep: char, b: string)
    ensures Split(a + [sep] + b, sep) == Split(a, sep) + Split(b, sep)
    decreases |a|
  {
    if |a| == 0 {
      assert a + [sep] + b == [sep] + b;
      SplitCons(sep, b, sep);
    } else {
      var c, t := a[0], a[1..];
      assert a == [c] + t;
      assert a + [sep] + b == [c] + (t + [sep] + b);
      SplitAround(t, sep, b);
      SplitCons(c, t + [sep] + b, sep);
      SplitCons(c, t, sep);
      PrependAppend(c, sep, Split(t, sep), Split(b, sep));
    }
  }

  /** Split undoes Join when no part holds the separator. */
  lemma {:induction false} SplitJoin(parts: seq<string>, sep: char)
    requires |parts| >= 1
    requires forall i :: 0 <= i < |parts| ==> sep !in parts[i]
    ensures Split(Join(parts, [sep]), sep) == parts
    decreases |parts|
  {
    if |parts| == 1 {
      SplitWithoutSep(parts[0], sep);
    } else {
      SplitWithoutSep(parts[0], sep);
      SplitJoin(parts[1..], sep);
      SplitAround(parts[0], sep, Join(parts[1..], [sep]));
      assert [parts[0]] + parts[1..] == parts;
    }
  }

  /** Join undoes Split, for every string. */
  lemma {:induction false} JoinSplit(s: string, sep: char)
    ensures Join(Split(s, sep), [sep]) == s
    decreases |s|
  {
    if |s| > 0 {
      JoinSplit(s[1..], sep);
      var rest := Split(s[1..], sep);
      assert [s[0]] + s[1..] == s;
      if s[0] != sep && |rest| > 1 {
        assert ([[s[0]] + rest[0]] + rest[1..])[1..] == rest[1..];
      }
    }
  }

  /**
   * The lexical processing of path.Clean, one element at a time: "" and "." elements vanish;
   * ".." removes the preceding real element, is dropped at the root of a rooted path, and
   * is kept when nothing can be removed in a relative path.
   */
  function Resolve(elems: seq<string>, rooted: bool, kept: seq<string>): seq<string>
    decreases |elems|
  {
    if elems == [] then kept
    else
      var e := elems[0];
      if e == "" || e == "." then Resolve(elems[1..], rooted, kept)
      else if e == ".." then
        if |kept| > 0 && kept[|kept| - 1] != ".." then Resolve(elems[1..], rooted, kept[..|kept| - 1])
        else if rooted then Resolve(elems[1..], rooted, kept)
        else Resolve(elems[1..], rooted, kept + [".."])
      else Resolve(elems[1..], rooted, kept + [e])
  }

  /** path.Clean: the shortest equivalent slash-separated path; "." for an empty result. */
  function Clean(p: string): (r: string)
    ensures r != ""
  {
    var rooted := |p| > 0 && p[0] == '/';
    var body := Join(Resolve(Split(p, '/'), rooted, []), "/");
    if rooted then "/" + body
    else if body == "" then "."
    else body
  }

  /** The elements from the first non-empty one on. */
  function DropLeadingEmpty(elems: seq<string>): (tail: seq<string>)
    ensures tail == [] || tail[0] != ""
  {
    if elems == [] || elems[0] != "" then elems else DropLeadingEmpty(elems[1..])
  }

  /**
   * path.Join: "" when every element is empty; otherwise the elements from the first
   * non-empty one on, joined with "/", then cleaned.
   */
  function PathJoin(elems: seq<string>): string
  {
    var tail := DropLeadingEmpty(elems);
    if tail == [] then "" else Clean(Join(tail, "/"))
  }

  /** DropLeadingEmpty drops exactly the leading empty elements: what remains is a suffix. */
  lemma {:induction false} DropLeadingEmptySuffix(elems: seq<string>)
    ensures var tail := DropLeadingEmpty(elems);
            && |tail| <= |elems| && tail == elems[|elems| - |tail|..]
            && forall i :: 0 <= i < |elems| - |tail| ==> elems[i] == ""
    decreases |elems|
  {
    if elems != [] && elems[0] == "" {
      DropLeadingEmptySuffix(elems[1..]);
    }
  }

  /** path.Join gives "" exactly when every element is empty. */
  lemma PathJoinEmpty(elems: seq<string>)
    ensures PathJoin(elems) == "" <==> forall i :: 0 <= i < |elems| ==> elems[i] == ""
  {
    var tail := DropLeadingEmpty(elems);
    DropLeadingEmptySuffix(elems);
    if tail != [] {
      assert elems[|elems| - |tail|] == tail[0];
    }
  }

  function DigitChar(d: nat): (c: char)
    requires d < 10
    ensures '0' <= c <= '9'
  {
    ('0' as int + d) as char
  }

  function DigitValue(c: char): (d: nat)
    requires '0' <= c <= '9'
    ensures d < 10 && DigitChar(d) == c
  {
    c as int - '0' as int
  }

  predicate IsDigits(s: string)
  {
    forall i :: 0 <= i < |s| ==> '0' <= s[i] <= '9'
  }

  /** The decimal digits of a natural number, most significant first, without leading zeros. */
  function Decimal(n: nat): (s: string)
    ensures |s| >= 1 && (|s| > 1 ==> s[0] != '0')
    ensures IsDigits(s)
    decreases n
  {
    if n < 10 then [DigitChar(n)] else Decimal(n / 10) + [DigitChar(n % 10)]
  }

  /** What fmt's %d prints for an int. */
  function Itoa(n: int): (s: string)
    ensures |s| >= 1
  {
    if n < 0 then "-" + Decimal(-n) else Decimal(n)
  }

  /** The value of a string of decimal digits. */
  function ParseDecimal(s: string): nat
    requires IsDigits(s)
    decreases |s|
  {
    if |s| == 0 then 0 else ParseDecimal(s[..|s| - 1]) * 10 + DigitValue(s[|s| - 1])
  }

  /** Reads back what Itoa prints; None for anything that is not an optional "-" and digits. */
  function Atoi(s: string): Option<int>
  {
    if |s| > 1 && s[0] == '-' && IsDigits(s[1..]) then
      Some(-(ParseDecimal(s[1..]) as int))
    else if |s| > 0 && IsDigits(s) then
      Some(ParseDecimal(s))
    else None
  }

  lemma {:induction false} DecimalRoundTrip(n: nat)
    ensures ParseDecimal(Decimal(n)) == n
    decreases n
  {
    var s := Decimal(n);
    if n < 10 {
      assert s[..0] == [];
    } else {
      DecimalRoundTrip(n / 10);
      assert s[..|s| - 1] == Decimal(n / 10);
      assert DigitValue(s[|s| - 1]) == n % 10;
    }
  }

  /** Reading back the digits of a natural number. */
  lemma AtoiDecimal(m: nat)
    ensures Atoi(Decimal(m)) == Some(m)
  {
    var d := Decimal(m);
    DecimalRoundTrip(m);
    assert d[0] != '-';
  }

  /** Reading back a "-" followed by the digits of a natural number. */
  lemma AtoiMinusDecimal(m: nat)
    ensures Atoi("-" + Decimal(m)) == Some(-(m as int))
  {
    var d := Decimal(m);
    DecimalRoundTrip(m);
    var s := "-" + d;
    assert s[1..] == d;
  }

  /** Every int's decimal rendering reads back as that int. */
  lemma ItoaRoundTrip(n: int)
    ensures Atoi(Itoa(n)) == Some(n)
  {
    if n < 0 {
      AtoiMinusDecimal(-n);
    } else {
      AtoiDecimal(n);
    }
  }

  /** The first position of `c` in `s`, or |s| when `c` does not occur. */
  function FirstIndexOf(s: string, c: char): (i: nat)
    ensures i <= |s|
    ensures i < |s| ==> s[i] == c
    ensures forall j :: 0 <= j < i ==> s[j] != c
    decreases |s|
  {
    if |s| == 0 || s[0] == c then 0 else 1 + FirstIndexOf(s[1..], c)
  }
}
