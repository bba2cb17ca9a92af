/** The parts of Go's `strings` package that the services rely on, over sequences of characters. */
module GoText {

  /** `unicode.IsSpace`. */
  predicate IsSpace(c: char) {
    || '\t' <= c <= '\r'
    || c == ' ' || c == '\U{85}' || c == '\U{A0}' || c == '\U{1680}'
    || '\U{2000}' <= c <= '\U{200A}'
    || c == '\U{2028}' || c == '\U{2029}' || c == '\U{202F}' || c == '\U{205F}' || c == '\U{3000}'
  }

  function TrimLeft(s: string): (r: string)
    ensures r == "" || !IsSpace(r[0])
    ensures |r| <= |s| && r == s[|s| - |r|..]
  {
    if s != "" && IsSpace(s[0]) then TrimLeft(s[1..]) else s
  }

  function TrimRight(s: string): (r: string)
    ensures r == "" || !IsSpace(r[|r| - 1])
    ensures |r| <= |s| && r == s[..|r|]
  {
    if s != "" && IsSpace(s[|s| - 1]) then TrimRight(s[..|s| - 1]) else s
  }

  /** `strings.TrimSpace`. */
  function TrimSpace(s: string): string {
    TrimRight(TrimLeft(s))
  }

  lemma {:induction false} TrimRightKeepsHead(head: string, tail: string)
    requires head != "" && !IsSpace(head[|head| - 1])
    ensures TrimRight(head + tail) == head + TrimRight(tail)
    decreases |tail|
  {
    if tail == "" {
      assert head + tail == head;
    } else if IsSpace(tail[|tail| - 1]) {
      assert (head + tail)[..|head + tail| - 1] == head + tail[..|tail| - 1];
      TrimRightKeepsHead(head, tail[..|tail| - 1]);
    }
  }

  lemma TrimSpaceIdempotent(s: string)
    ensures TrimSpace(TrimSpace(s)) == TrimSpace(s)
  {
    var t := TrimSpace(s);
    if t != "" {
      assert t[0] == TrimLeft(s)[0];
    }
  }

  predicate IsWord(w: string) {
    w != "" && forall c | c in w :: !IsSpace(c)
  }

  /** The leading run of characters that are not white space. */
  function Word(s: string): (w: string)
    ensures w <= s
    ensures forall c | c in w :: !IsSpace(c)
    ensures w == s || IsSpace(s[|w|])
  {
    if s == "" || IsSpace(s[0]) then "" else [s[0]] + Word(s[1..])
  }

  /** `strings.Fields`: the maximal runs of characters that are not white space. */
  function Fields(s: string): (words: seq<string>)
    ensures forall w | w in words :: IsWord(w)
    decreases |s|
  {
    var t := TrimLeft(s);
    if t == "" then [] else
      var w := Word(t);
      assert IsWord(w) by { assert w != ""; }
      [w] + Fields(t[|w|..])
  }

  /** `strings.Join(words, " ")`. */
  function JoinWithSpace(words: seq<string>): string {
    if words == [] then ""
    else if |words| == 1 then words[0]
    else words[0] + " " + JoinWithSpace(words[1..])
  }

  function UpperChar(c: char): char {
    if 'a' <= c <= 'z' then c - 'a' + 'A' else c
  }

  /** `strings.ToUpper` on ASCII letters; other characters stay as they are. */
  function ToUpper(s: string): string {
    seq(|s|, i requires 0 <= i < |s| => UpperChar(s[i]))
  }

  lemma UpperKeepsSpaces(c: char)
    ensures IsSpace(UpperChar(c)) <==> IsSpace(c)
    ensures UpperChar(UpperChar(c)) == UpperChar(c)
  {
  }

  lemma FieldsTakesWord(w: string, tail: string)
    requires IsWord(w)
    requires tail == "" || IsSpace(tail[0])
    ensures Fields(w + tail) == [w] + Fields(tail)
  {
    var text := w + tail;
    assert w[0] in w && text[0] == w[0];
    assert TrimLeft(text) == text;
    WordStopsAtSpace(w, tail);
    assert text[|w|..] == tail;
  }

  lemma FieldsSkipsSpace(s: string)
    requires s != "" && IsSpace(s[0])
    ensures Fields(s) == Fields(s[1..])
  {
    assert TrimLeft(s) == TrimLeft(s[1..]);
  }

  lemma FieldsAfterSpace(w: string, text: string)
    requires IsWord(w)
    ensures Fields(w + (" " + text)) == [w] + Fields(text)
  {
    var tail := " " + text;
    assert tail[0] == ' ' && tail[1..] == text;
    FieldsTakesWord(w, tail);
    FieldsSkipsSpace(tail);
  }

  lemma JoinStartsWithWord(words: seq<string>)
    requires |words| > 1
    ensures JoinWithSpace(words) == words[0] + (" " + JoinWithSpace(words[1..]))
  {
    var rest := JoinWithSpace(words[1..]);
    assert (words[0] + " ") + rest == words[0] + (" " + rest);
  }

  /** A list of words comes back from its own joined text. */
  lemma {:induction false} FieldsOfJoin(words: seq<string>)
    requires forall w | w in words :: IsWord(w)
    ensures Fields(JoinWithSpace(words)) == words
  {
    if words != [] {
      var w, rest := words[0], words[1..];
      FieldsOfJoin(rest);
      if rest == [] {
        assert w + "" == w;
        FieldsTakesWord(w, "");
      } else {
        JoinStartsWithWord(words);
        FieldsAfterSpace(w, JoinWithSpace(rest));
      }
    }
  }

  lemma {:induction false} WordStopsAtSpace(w: string, tail: string)
    requires forall c | c in w :: !IsSpace(c)
    requires tail == "" || IsSpace(tail[0])
    ensures Word(w + tail) == w
  {
    if w == "" {
      assert w + tail == tail;
    } else {
      assert (w + tail)[1..] == w[1..] + tail;
      WordStopsAtSpace(w[1..], tail);
    }
  }

  function UpperWords(words: seq<string>): (r: seq<string>)
    ensures |r| == |words| && forall i | 0 <= i < |r| :: r[i] == ToUpper(words[i])
  {
    seq(|words|, i requires 0 <= i < |words| => ToUpper(words[i]))
  }

  lemma {:induction false} UpperOfJoin(words: seq<string>)
    ensures ToUpper(JoinWithSpace(words)) == JoinWithSpace(UpperWords(words))
  {
    if |words| > 1 {
      UpperOfJoin(words[1..]);
      assert UpperWords(words)[1..] == UpperWords(words[1..]);
      assert ToUpper(words[0] + " " + JoinWithSpace(words[1..]))
          == ToUpper(words[0]) + " " + ToUpper(JoinWithSpace(words[1..]));
    }
  }
}
