/** Splitting and trimming text. */
module Paths {
  /** strings.Split with a one-character separator. */
  function Split(text: string, sep: char): (parts: seq<string>)
    ensures parts != []
  {
    if text == [] then [""]
    else
      var rest := Split(text[1..], sep);
      if text[0] == sep then [""] + rest else [[text[0]] + rest[0]] + rest[1..]
  }

  /** The segments of a slash-separated name. */
  function Segments(name: string): (parts: seq<string>)
    ensures parts != []
  {
    Split(name, '/')
  }

  /** strings.TrimPrefix. */
  function TrimPrefix(name: string, prefix: string): string {
    if prefix <= name then name[|prefix|..] else name
  }

  predicate IsSpace(ch: char) {
    ch == ' ' || ch == '\t' || ch == '\n' || ch == '\r'
  }

  /** strings.TrimSpace, of ASCII space. */
  function TrimSpace(text: string): string
    decreases |text|
  {
    if text == [] then []
    else if IsSpace(text[0]) then TrimSpace(text[1..])
    else if IsSpace(text[|text|-1]) then TrimSpace(text[..|text|-1])
    else text
  }

  /** The parts with the separator between them. */
  function Join(parts: seq<string>, sep: char): string {
    if parts == [] then "" else if |parts| == 1 then parts[0] else parts[0] + [sep] + Join(parts[1..], sep)
  }

  /** Splitting loses nothing. */
  lemma {:induction false} JoinedAgain(text: string, sep: char)
    ensures Join(Split(text, sep), sep) == text
  {
    if text != [] {
      var rest := Split(text[1..], sep);
      JoinedAgain(text[1..], sep);
      assert text == [text[0]] + text[1..];
      if text[0] == sep {
        assert ([""] + rest)[1..] == rest;
      } else {
        assert ([[text[0]] + rest[0]] + rest[1..])[1..] == rest[1..];
      }
    }
  }

  /** No part holds the separator. */
  lemma {:induction false} OnePiece(text: string, sep: char, i: nat)
    requires i < |Split(text, sep)|
    ensures sep !in Split(text, sep)[i]
  {
    if text != [] {
      var rest := Split(text[1..], sep);
      if text[0] == sep {
        if i > 0 {
          OnePiece(text[1..], sep, i - 1);
        }
      } else {
        OnePiece(text[1..], sep, i);
      }
    }
  }

  lemma {:induction false} SplitNone(text: string, sep: char)
    requires sep !in text
    ensures Split(text, sep) == [text]
  {
    if text != [] {
      SplitNone(text[1..], sep);
      assert text == [text[0]] + text[1..];
    }
  }

  lemma {:induction false} SplitAtFirst(first: string, rest: string, sep: char)
    requires sep !in first
    ensures Split(first + [sep] + rest, sep) == [first] + Split(rest, sep)
  {
    var text := first + [sep] + rest;
    if first == [] {
      assert text[1..] == rest;
    } else {
      assert text[1..] == first[1..] + [sep] + rest && text[0] == first[0];
      SplitAtFirst(first[1..], rest, sep);
      assert [first[0]] + first[1..] == first;
    }
  }

  lemma TwoParts(text: string, sep: char)
    requires |Split(text, sep)| == 2
    ensures var parts := Split(text, sep); sep !in parts[0] && text == parts[0] + [sep] + parts[1]
  {
    JoinedAgain(text, sep);
    OnePiece(text, sep, 0);
  }

  lemma TwoPartsOf(first: string, last: string, sep: char)
    requires sep !in first && sep !in last
    ensures Split(first + [sep] + last, sep) == [first, last]
  {
    SplitAtFirst(first, last, sep);
    SplitNone(last, sep);
  }
}
