/** JSON Pointers (RFC 6901) as the presentation tools write them and the host reads them. */
module Pointer {
  import opened Common

  // ---------------------------------------------------------------- decimal indices

  function Digit(d: nat): char
    requires d < 10
  {
    '0' + (d as char)
  }

  predicate IsDigit(c: char) {
    '0' <= c <= '9'
  }

  function DigitValue(c: char): nat
    requires IsDigit(c)
  {
    (c - '0') as nat
  }

  /** How an index is written into a path. */
  function Decimal(n: nat): (s: string)
    ensures |s| > 0 && forall c :: c in s ==> IsDigit(c)
  {
    if n < 10 then [Digit(n)] else Decimal(n / 10) + [Digit(n % 10)]
  }

  function IntText(i: int): string {
    if i < 0 then "-" + Decimal(-i) else Decimal(i)
  }

  function Number(s: string): Option<nat> {
    if s == "" then None
    else if !IsDigit(s[|s| - 1]) then None
    else if |s| == 1 then Some(DigitValue(s[0]))
    else
      match Number(s[..|s| - 1])
      case None => None
      case Some(n) => Some(10 * n + DigitValue(s[|s| - 1]))
  }

  /** An array index is a decimal number without leading zeros (section 4 of RFC 6901). */
  function ArrayIndex(t: string): Option<nat> {
    if |t| > 1 && t[0] == '0' then None else Number(t)
  }

  lemma {:induction false} DecimalReads(n: nat)
    ensures Number(Decimal(n)) == Some(n) && (n > 0 ==> Decimal(n)[0] != '0') && (n >= 10 ==> |Decimal(n)| > 1)
  {
    if n >= 10 {
      DecimalReads(n / 10);
      var s := Decimal(n);
      assert s[..|s| - 1] == Decimal(n / 10);
    }
  }

  /** Writing an index and reading it back gives the index; a negative one is no array index. */
  lemma IndexRoundTrip(i: int)
    ensures ArrayIndex(IntText(i)) == if i < 0 then None else Some(i)
  {
    if i < 0 {
      NotANumber(IntText(i));
    } else {
      DecimalReads(i);
    }
  }

  lemma {:induction false} NotANumber(s: string)
    requires |s| > 1 && s[0] == '-'
    ensures Number(s) == None
  {
    if |s| > 2 {
      NotANumber(s[..|s| - 1]);
    } else {
      assert s[..1] == ['-'];
    }
  }

  // ---------------------------------------------------------------- pointer text

  predicate Slashless(t: string) {
    '/' !in t
  }

  predicate Clean(t: string) {
    Slashless(t) && '~' !in t
  }

  /** A path as the tools build it: every token after a slash, nothing escaped. */
  function Text(tokens: seq<string>): string {
    if tokens == [] then "" else "/" + tokens[0] + Text(tokens[1..])
  }

  function Pieces(s: string): (p: seq<string>)
    ensures |p| > 0
  {
    if s == "" then [""]
    else if s[0] == '/' then [""] + Pieces(s[1..])
    else
      var rest := Pieces(s[1..]);
      [[s[0]] + rest[0]] + rest[1..]
  }

  function Unescape(t: string): string {
    if t == "" then ""
    else if t[0] == '~' && |t| > 1 && t[1] == '1' then "/" + Unescape(t[2..])
    else if t[0] == '~' && |t| > 1 && t[1] == '0' then "~" + Unescape(t[2..])
    else [t[0]] + Unescape(t[1..])
  }

  function UnescapeAll(p: seq<string>): (u: seq<string>)
    ensures |u| == |p| && forall i :: 0 <= i < |p| ==> u[i] == Unescape(p[i])
  {
    seq(|p|, i requires 0 <= i < |p| => Unescape(p[i]))
  }

  /** How the host reads a pointer. */
  function Tokens(path: string): Option<seq<string>> {
    if path == "" then Some([])
    else if path[0] != '/' then None
    else Some(UnescapeAll(Pieces(path[1..])))
  }

  lemma {:induction false} CleanIsItself(t: string)
    requires Clean(t)
    ensures Unescape(t) == t
  {
    if t != "" { CleanIsItself(t[1..]); }
  }

  lemma {:induction false} PiecesOfOne(t: string, more: string)
    requires Slashless(t)
    ensures Pieces(t) == [t]
    ensures Pieces(t + "/" + more) == [t] + Pieces(more)
  {
    var all := t + "/" + more;
    if t == "" {
      assert all[1..] == more;
    } else {
      PiecesOfOne(t[1..], more);
      assert all[1..] == t[1..] + "/" + more;
      assert [t[0]] + t[1..] == t;
    }
  }

  lemma {:induction false} PiecesOfText(t: string, tokens: seq<string>)
    requires Slashless(t) && forall k :: k in tokens ==> Slashless(k)
    ensures Pieces(t + Text(tokens)) == [t] + tokens
    decreases |tokens|
  {
    hide Slashless;
    if tokens == [] {
      assert t + Text(tokens) == t;
      PiecesOfOne(t, "");
    } else {
      PiecesOfText(tokens[0], tokens[1..]);
      PiecesOfOne(t, tokens[0] + Text(tokens[1..]));
      assert t + Text(tokens) == t + "/" + (tokens[0] + Text(tokens[1..]));
    }
  }

  /** The host reads back exactly the tokens the tool wrote. */
  lemma PathRoundTrip(tokens: seq<string>)
    requires forall k :: k in tokens ==> Clean(k)
    ensures Tokens(Text(tokens)) == Some(tokens)
  {
    hide Slashless, Pieces, Unescape;
    if tokens != [] {
      var path := Text(tokens);
      assert path[1..] == tokens[0] + Text(tokens[1..]);
      forall k | k in tokens ensures Slashless(k) {
        assert Clean(k);
      }
      PiecesOfText(tokens[0], tokens[1..]);
      assert tokens == [tokens[0]] + tokens[1..];
      forall i | 0 <= i < |tokens| ensures Unescape(tokens[i]) == tokens[i] {
        CleanIsItself(tokens[i]);
      }
      assert UnescapeAll(tokens) == tokens;
    }
  }

  /** How a token with any characters is written (section 4 of RFC 6901). */
  function Escape(t: string): string {
    if t == "" then ""
    else (if t[0] == '~' then "~0" else if t[0] == '/' then "~1" else [t[0]]) + Escape(t[1..])
  }

  lemma {:induction false} EscapeReads(t: string)
    ensures Slashless(Escape(t)) && Unescape(Escape(t)) == t
  {
    if t != "" {
      EscapeReads(t[1..]);
      var head := if t[0] == '~' then "~0" else if t[0] == '/' then "~1" else [t[0]];
      assert Escape(t)[|head|..] == Escape(t[1..]);
    }
  }

  function EscapeAll(tokens: seq<string>): (e: seq<string>)
    ensures |e| == |tokens| && forall i :: 0 <= i < |tokens| ==> e[i] == Escape(tokens[i])
  {
    seq(|tokens|, i requires 0 <= i < |tokens| => Escape(tokens[i]))
  }

  /** The host's reading undoes the escaping of any tokens, not only of those the tools write. */
  lemma EscapedRoundTrip(tokens: seq<string>)
    ensures Tokens(Text(EscapeAll(tokens))) == Some(tokens)
  {
    hide Slashless, Pieces, Unescape, Escape;
    var e := EscapeAll(tokens);
    forall i | 0 <= i < |tokens| ensures Slashless(e[i]) && Unescape(e[i]) == tokens[i] {
      EscapeReads(tokens[i]);
    }
    if tokens != [] {
      var path := Text(e);
      assert path[1..] == e[0] + Text(e[1..]);
      PiecesOfText(e[0], e[1..]);
      assert e == [e[0]] + e[1..];
      assert UnescapeAll(e) == tokens;
    }
  }

  lemma IntTextClean(i: int)
    ensures Clean(IntText(i))
  {
  }
}
