/**
 * The side-channel codec: a list of strings written as a JSON array of
 * quoted strings (`["a","b"]`), with `"` and `\` escaped by a backslash.
 * Structured values are flattened into such lists before they are stored in
 * an annotation, and decoding rejects anything that is not such an array.
 */
module Codec {
  import opened Wrappers

  /** Prefixes each quote and backslash of `s` with a backslash. */
  function Escape(s: string): string
  {
    if s == [] then []
    else (if s[0] == '"' || s[0] == '\\' then ['\\', s[0]] else [s[0]]) + Escape(s[1..])
  }

  /** A string literal: `s` escaped and enclosed in quotes. */
  function Quote(s: string): (r: string)
    ensures |r| >= 2 && r[0] == '"'
  {
    ['"'] + Escape(s) + ['"']
  }

  /** The quoted items of `xs`, separated by commas. */
  function Items(xs: seq<string>): string
  {
    if xs == [] then []
    else if |xs| == 1 then Quote(xs[0])
    else Quote(xs[0]) + [','] + Items(xs[1..])
  }

  /** The JSON array of the strings `xs`. It is never empty. */
  function EncodeStrings(xs: seq<string>): (r: string)
    ensures |r| >= 2 && r[0] == '[' && r[|r| - 1] == ']'
  {
    ['['] + Items(xs) + [']']
  }

  /**
   * Reads the body of a string literal whose opening quote is already
   * consumed: the unescaped content, and what follows the closing quote.
   */
  function ReadQuoted(s: string): (r: Option<(string, string)>)
    ensures r.Some? ==> |r.value.1| < |s|
  {
    if s == [] then None
    else if s[0] == '"' then Some(([], s[1..]))
    else if s[0] == '\\' then
      if |s| < 2 then None
      else match ReadQuoted(s[2..])
        case None => None
        case Some(p) => Some(([s[1]] + p.0, p.1))
    else match ReadQuoted(s[1..])
      case None => None
      case Some(p) => Some(([s[0]] + p.0, p.1))
  }

  /** Reads one or more comma-separated string literals and the closing bracket that ends the input. */
  function ReadItems(s: string): Option<seq<string>>
    decreases |s|
  {
    if s == [] || s[0] != '"' then None
    else match ReadQuoted(s[1..])
      case None => None
      case Some(p) =>
        if p.1 == [']'] then Some([p.0])
        else if p.1 != [] && p.1[0] == ',' then
          match ReadItems(p.1[1..])
          case None => None
          case Some(tail) => Some([p.0] + tail)
        else None
  }

  /** Parses a JSON array of strings; None when `s` is not one. */
  function DecodeStrings(s: string): Option<seq<string>>
  {
    if |s| < 2 || s[0] != '[' then None
    else if s[1..] == [']'] then Some([])
    else ReadItems(s[1..])
  }

  lemma {:induction false} ReadQuotedEscaped(s: string, rest: string)
    ensures ReadQuoted(Escape(s) + ['"'] + rest) == Some((s, rest))
  {
    var t := Escape(s) + ['"'] + rest;
    if s == [] {
      assert t == ['"'] + rest;
    } else {
      ReadQuotedEscaped(s[1..], rest);
      var tail := Escape(s[1..]) + ['"'] + rest;
      assert [s[0]] + s[1..] == s;
      if s[0] == '"' || s[0] == '\\' {
        assert t == ['\\', s[0]] + tail;
        assert t[2..] == tail;
      } else {
        assert t == [s[0]] + tail;
        assert t[1..] == tail;
      }
    }
  }

  lemma ItemsLength(xs: seq<string>)
    requires xs != []
    ensures |Items(xs)| >= 2
  {
  }

  lemma {:induction false} ReadItemsEncoded(xs: seq<string>)
    requires xs != []
    ensures ReadItems(Items(xs) + [']']) == Some(xs)
  {
    var s := Items(xs) + [']'];
    var after := if |xs| == 1 then [']'] else [','] + Items(xs[1..]) + [']'];
    assert s == ['"'] + (Escape(xs[0]) + ['"'] + after);
    assert s[1..] == Escape(xs[0]) + ['"'] + after;
    ReadQuotedEscaped(xs[0], after);
    assert s[0] == '"';
    if |xs| == 1 {
      assert xs == [xs[0]];
    } else {
      ItemsLength(xs[1..]);
      assert after != [']'];
      assert after[1..] == Items(xs[1..]) + [']'];
      ReadItemsEncoded(xs[1..]);
      assert [xs[0]] + xs[1..] == xs;
    }
  }

  /** Decoding an encoded list gives the list back. */
  lemma {:induction false} DecodeEncodeStrings(xs: seq<string>)
    ensures DecodeStrings(EncodeStrings(xs)) == Some(xs)
  {
    var s := EncodeStrings(xs);
    if xs == [] {
      assert s == ['[', ']'];
    } else {
      ItemsLength(xs);
      assert s[1..] == Items(xs) + [']'];
      ReadItemsEncoded(xs);
    }
  }
}
