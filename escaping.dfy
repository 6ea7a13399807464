/**
 * Quoting of string arguments for the remote command line.
 *
 * Every string argument of a simple remote call is substituted into a
 * PowerShell command line between single quotes; doubling each embedded
 * quote is the only thing that keeps an argument from ending its literal
 * early. `ParseQuoted` reads a single-quoted literal the way the remote
 * interpreter does, so the round-trip lemmas below state that an escaped
 * argument always reads back as exactly itself.
 */
module Escaping {
  import opened Common

  /** Number of single quotes in `s`. */
  function Quotes(s: string): nat
  {
    if s == [] then 0 else (if s[0] == '\'' then 1 else 0) + Quotes(s[1..])
  }

  /** escapeSingleQuotes: every `'` becomes `''`, every other character is kept. */
  function EscapeSingleQuotes(s: string): (r: string)
    ensures |r| == |s| + Quotes(s)
    ensures Quotes(r) == 2 * Quotes(s)
  {
    if s == [] then []
    else (if s[0] == '\'' then "''" else [s[0]]) + EscapeSingleQuotes(s[1..])
  }

  lemma {:induction false} QuotesAppend(a: string, b: string)
    ensures Quotes(a + b) == Quotes(a) + Quotes(b)
  {
    if a == [] {
      assert a + b == b;
    } else {
      assert (a + b)[0] == a[0];
      assert (a + b)[1..] == a[1..] + b;
      QuotesAppend(a[1..], b);
    }
  }

  /**
   * Reads the body of a single-quoted literal whose opening quote has been
   * consumed: `''` stands for one quote, a lone `'` ends the literal. Gives
   * the literal's value and the text after the closing quote, or None when
   * the literal is never closed.
   */
  function ParseQuoted(t: string): (r: Option<(string, string)>)
    ensures r.Some? ==> |r.value.1| < |t|
    decreases |t|
  {
    if t == [] then None
    else if t[0] == '\'' then
      if |t| > 1 && t[1] == '\'' then
        match ParseQuoted(t[2..])
        case None => None
        case Some(p) => Some(("'" + p.0, p.1))
      else Some(("", t[1..]))
    else
      match ParseQuoted(t[1..])
      case None => None
      case Some(p) => Some(([t[0]] + p.0, p.1))
  }

  /**
   * The injection defence: an escaped argument followed by the closing quote
   * reads back as exactly the argument, and whatever follows the closing
   * quote (anything but another quote) is left for the command line.
   */
  lemma {:induction false} QuotedRoundTrip(s: string, rest: string)
    requires rest == [] || rest[0] != '\''
    ensures ParseQuoted(EscapeSingleQuotes(s) + "'" + rest) == Some((s, rest))
  {
    if s == [] {
      var t := EscapeSingleQuotes(s) + "'" + rest;
      assert t == "'" + rest;
      assert t[0] == '\'' && t[1..] == rest;
    } else {
      var head := if s[0] == '\'' then "''" else [s[0]];
      var tail := EscapeSingleQuotes(s[1..]) + "'" + rest;
      QuotedRoundTrip(s[1..], rest);
      assert EscapeSingleQuotes(s) == head + EscapeSingleQuotes(s[1..]);
      Regroup(head, EscapeSingleQuotes(s[1..]), "'", rest);
      ParseQuotedStep(s[0], tail);
      assert [s[0]] + s[1..] == s;
    }
  }

  /** Concatenation regrouped: the first piece in front of the other three. */
  lemma Regroup(p: string, q: string, r: string, t: string)
    ensures p + q + r + t == p + (q + r + t)
  {
  }

  /** Reading one more character (a doubled quote for a quote) in front of a literal's body. */
  lemma ParseQuotedStep(c: char, tail: string)
    requires ParseQuoted(tail).Some?
    ensures ParseQuoted((if c == '\'' then "''" else [c]) + tail) == Some(([c] + ParseQuoted(tail).value.0, ParseQuoted(tail).value.1))
  {
    var t := (if c == '\'' then "''" else [c]) + tail;
    if c == '\'' {
      assert t[0] == '\'' && t[1] == '\'' && t[2..] == tail;
    } else {
      assert t[0] == c && t[1..] == tail;
    }
  }

  /** Collapsing `''` back to `'` recovers the argument. */
  lemma UnescapeRecovers(s: string)
    ensures ParseQuoted(EscapeSingleQuotes(s) + "'") == Some((s, ""))
  {
    QuotedRoundTrip(s, "");
    assert EscapeSingleQuotes(s) + "'" + "" == EscapeSingleQuotes(s) + "'";
  }

  /** The escaped elements of a non-empty list, joined by `','`. */
  function Joined(xs: seq<string>): string
    requires |xs| > 0
  {
    if |xs| == 1 then EscapeSingleQuotes(xs[0])
    else Joined(xs[..|xs| - 1]) + "','" + EscapeSingleQuotes(xs[|xs| - 1])
  }

  /** Appending an element appends a separator and the escaped element. */
  lemma JoinedSnoc(xs: seq<string>, y: string)
    requires |xs| > 0
    ensures Joined(xs + [y]) == Joined(xs) + "','" + EscapeSingleQuotes(y)
  {
    assert (xs + [y])[..|xs|] == xs;
  }

  /**
   * The text the array form should produce: `""` for no elements, otherwise
   * every element escaped and quoted, separated by commas (`'a','b'`).
   */
  function QuotedList(xs: seq<string>): (r: string)
    ensures xs == [] <==> r == ""
    ensures xs != [] ==> |r| >= 2 && r[0] == '\'' && r[|r| - 1] == '\''
  {
    if xs == [] then "" else "'" + Joined(xs) + "'"
  }

  lemma {:induction false} JoinedCons(xs: seq<string>)
    requires |xs| >= 2
    ensures Joined(xs) == EscapeSingleQuotes(xs[0]) + "','" + Joined(xs[1..])
  {
    var n := |xs|;
    if n > 2 {
      JoinedCons(xs[..n - 1]);
      assert xs[..n - 1][1..] == xs[1..][..n - 2];
      assert xs[..n - 1][0] == xs[0];
    } else {
      assert xs[1..] == [xs[1]];
      assert xs[..1] == [xs[0]];
    }
  }

  /** Reads comma-separated quoted literals; `t` starts after the first opening quote. */
  function ParseElems(t: string): Option<seq<string>>
    decreases |t|
  {
    match ParseQuoted(t)
    case None => None
    case Some(p) =>
      if p.1 == [] then Some([p.0])
      else if |p.1| >= 2 && p.1[0] == ',' && p.1[1] == '\'' then
        match ParseElems(p.1[2..])
        case None => None
        case Some(rest) => Some([p.0] + rest)
      else None
  }

  /** Reads a list of single-quoted literals as PowerShell reads the inside of `@( … )`. */
  function ParseList(t: string): Option<seq<string>>
  {
    if t == [] then Some([]) else if t[0] == '\'' then ParseElems(t[1..]) else None
  }

  /** One more escaped element and separator in front of a readable list body. */
  lemma ParseElemsStep(x: string, next: string)
    requires ParseElems(next).Some?
    ensures ParseElems(EscapeSingleQuotes(x) + "','" + next) == Some([x] + ParseElems(next).value)
  {
    var rest := ",'" + next;
    assert EscapeSingleQuotes(x) + "','" + next == EscapeSingleQuotes(x) + "'" + rest;
    QuotedRoundTrip(x, rest);
    assert rest[2..] == next;
  }

  lemma {:induction false} ParseElemsJoined(xs: seq<string>)
    requires |xs| > 0
    ensures ParseElems(Joined(xs) + "'") == Some(xs)
  {
    if |xs| == 1 {
      QuotedRoundTrip(xs[0], "");
      assert Joined(xs) + "'" == EscapeSingleQuotes(xs[0]) + "'" + "";
      assert [xs[0]] == xs;
    } else {
      JoinedCons(xs);
      ParseElemsJoined(xs[1..]);
      ParseElemsStep(xs[0], Joined(xs[1..]) + "'");
      assert Joined(xs) + "'" == EscapeSingleQuotes(xs[0]) + "','" + (Joined(xs[1..]) + "'");
      assert [xs[0]] + xs[1..] == xs;
    }
  }

  /** The list form round-trips: the remote side reads back exactly the list's elements. */
  lemma QuotedListRoundTrip(xs: seq<string>)
    ensures ParseList(QuotedList(xs)) == Some(xs)
  {
    if xs != [] {
      ParseElemsJoined(xs);
      assert QuotedList(xs)[1..] == Joined(xs) + "'";
    }
  }

  /**
   * escapeSingleQuotesArray with the loop reading the element it visits:
   * opens a quote, writes the first element, then `','` and each further
   * element, and closes the quote.
   */
  method EscapeSingleQuotesArray(str: seq<string>) returns (res: string)
    ensures res == QuotedList(str)
  {
    if |str| == 0 {
      return "";
    }
    res := "'" + EscapeSingleQuotes(str[0]);
    assert str[..1] == [str[0]];
    var k := 1;
    while k < |str|
      invariant 1 <= k <= |str|
      invariant res == "'" + Joined(str[..k])
    {
      assert str[..k + 1] == str[..k] + [str[k]];
      JoinedSnoc(str[..k], str[k]);
      Regroup("'", Joined(str[..k]), "','", EscapeSingleQuotes(str[k]));
      res := res + "','" + EscapeSingleQuotes(str[k]);
      k := k + 1;
    }
    assert str[..k] == str;
    res := res + "'";
  }

  /** The list the source's loop actually renders: the first element, then every element but the last. */
  function Shifted(xs: seq<string>): (r: seq<string>)
    ensures |r| == |xs|
    ensures xs != [] ==> r[0] == xs[0]
    ensures forall k :: 0 < k < |xs| ==> r[k] == xs[k - 1]
  {
    if xs == [] then [] else [xs[0]] + xs[..|xs| - 1]
  }

  /**
   * escapeSingleQuotesArray as written: `for s := range str[1:]` yields the
   * indices 0 .. len(str)-2, and the body writes `str[s]`, so the element
   * written after the k-th separator is `str[k-1]`, not `str[k]`.
   */
  method EscapeSingleQuotesArrayAsWritten(str: seq<string>) returns (res: string)
    ensures res == QuotedList(Shifted(str))
  {
    if |str| == 0 {
      return "";
    }
    res := "'" + EscapeSingleQuotes(str[0]);
    ghost var shifted := Shifted(str);
    assert shifted[..1] == [str[0]];
    var s := 0;
    while s < |str| - 1
      invariant 0 <= s <= |str| - 1
      invariant res == "'" + Joined(shifted[..s + 1])
    {
      assert shifted[..s + 2] == shifted[..s + 1] + [str[s]];
      JoinedSnoc(shifted[..s + 1], str[s]);
      Regroup("'", Joined(shifted[..s + 1]), "','", EscapeSingleQuotes(str[s]));
      res := res + "','" + EscapeSingleQuotes(str[s]);
      s := s + 1;
    }
    assert shifted[..s + 1] == shifted;
    res := res + "'";
  }

  /**
   * What the remote side reads from the as-written rendering: the first
   * element twice and the last one lost, so a list reads back correctly only
   * when all its elements are equal.
   */
  lemma AsWrittenRoundTrip(xs: seq<string>)
    ensures ParseList(QuotedList(Shifted(xs))) == Some(Shifted(xs))
    ensures ParseList(QuotedList(Shifted(xs))) == Some(xs) <==> forall k :: 0 < k < |xs| ==> xs[k] == xs[k - 1]
  {
    QuotedListRoundTrip(Shifted(xs));
    if forall k :: 0 < k < |xs| ==> xs[k] == xs[k - 1] {
      assert xs != [] ==> Shifted(xs)[0] == xs[0];
      assert Shifted(xs) == xs;
    }
  }

  /** A two-group membership list: the second group is replaced by the first. */
  lemma AsWrittenLosesSecondGroup()
    ensures ParseList(QuotedList(Shifted(["admins", "servers"]))) == Some(["admins", "admins"])
    ensures ParseList(QuotedList(Shifted(["admins", "servers"]))) != Some(["admins", "servers"])
  {
    var xs := ["admins", "servers"];
    assert Shifted(xs) == ["admins", "admins"];
    AsWrittenRoundTrip(xs);
  }
}
