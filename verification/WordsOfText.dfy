/** What trimming, splitting into words and upper-casing give, said of the characters themselves. */
module WordsOfText {
  import opened GoText

  predicate AllSpace(s: string) {
    forall i | 0 <= i < |s| :: IsSpace(s[i])
  }

  /** The code points that count as white space. */
  lemma SpacesAre(c: char)
    ensures IsSpace(c) <==>
      var n := c as int;
      9 <= n <= 13 || n in {32, 133, 160, 5760, 8232, 8233, 8239, 8287, 12288} || 8192 <= n <= 8202
  {
  }

  lemma {:induction false} TrimLeftDropsSpace(s: string)
    ensures AllSpace(s[..|s| - |TrimLeft(s)|])
  {
    if s != "" && IsSpace(s[0]) {
      TrimLeftDropsSpace(s[1..]);
      var t := TrimLeft(s[1..]);
      assert s[..|s| - |t|] == [s[0]] + s[1..][..|s[1..]| - |t|];
    }
  }

  lemma {:induction false} TrimRightDropsSpace(s: string)
    ensures AllSpace(s[|TrimRight(s)|..])
  {
    if s != "" && IsSpace(s[|s| - 1]) {
      TrimRightDropsSpace(s[..|s| - 1]);
      var t := TrimRight(s[..|s| - 1]);
      assert s[|t|..] == s[..|s| - 1][|t|..] + [s[|s| - 1]];
    }
  }

  predicate Frames(s: string, t: string, pre: string, post: string) {
    s == pre + t + post && AllSpace(pre) && AllSpace(post)
  }

  lemma TrimSplits(s: string) returns (pre: string, post: string)
    ensures Frames(s, TrimSpace(s), pre, post)
  {
    var left := TrimLeft(s);
    var t := TrimRight(left);
    pre, post := s[..|s| - |left|], left[|t|..];
    TrimLeftDropsSpace(s);
    TrimRightDropsSpace(left);
    assert left == t + post && s == pre + left;
    assert pre + (t + post) == pre + t + post;
  }

  /** `t` is `s` without the white space at its two ends. */
  ghost predicate IsTrimmed(s: string, t: string) {
    && (t != "" ==> !IsSpace(t[0]) && !IsSpace(t[|t| - 1]))
    && exists pre, post :: Frames(s, t, pre, post)
  }

  lemma TrimSpaceExactly(s: string)
    ensures IsTrimmed(s, TrimSpace(s))
  {
    var pre, post := TrimSplits(s);
    var t := TrimSpace(s);
    if t != "" { assert t[0] == TrimLeft(s)[0]; }
  }

  /** The text consists of these words, with white space in front, behind, and between any two. */
  ghost predicate Spells(s: string, words: seq<string>)
    decreases |words|
  {
    if words == [] then AllSpace(s)
    else exists i, j :: StartsWith(s, i, j, words[0]) && Spells(s[j..], words[1..])
  }

  predicate StartsWith(s: string, i: int, j: int, word: string) {
    && 0 <= i < j <= |s| && AllSpace(s[..i]) && s[i..j] == word && IsWord(word)
    && (j == |s| || IsSpace(s[j]))
  }

  lemma FirstWord(s: string) returns (i: nat, j: nat)
    ensures TrimLeft(s) == "" ==> AllSpace(s) && Fields(s) == []
    ensures TrimLeft(s) != "" ==>
              i < j <= |s| && StartsWith(s, i, j, s[i..j]) && Fields(s) == [s[i..j]] + Fields(s[j..])
  {
    var t := TrimLeft(s);
    TrimLeftDropsSpace(s);
    i := |s| - |t|;
    j := i + |Word(t)|;
    if t == "" {
      assert s[..i] == s;
    } else {
      assert Word(t) != "" && s[i..j] == Word(t) && s[j..] == t[|Word(t)|..];
    }
  }

  lemma {:induction false} FieldsAreSpelled(s: string)
    ensures Spells(s, Fields(s))
    decreases |s|
  {
    var i, j := FirstWord(s);
    if TrimLeft(s) != "" {
      FieldsAreSpelled(s[j..]);
      WordIsSpelled(s, i, j, s[i..j], Fields(s[j..]));
    }
  }

  lemma WordIsSpelled(s: string, i: int, j: int, w: string, words: seq<string>)
    requires StartsWith(s, i, j, w) && Spells(s[j..], words)
    ensures Spells(s, [w] + words)
  {
    assert ([w] + words)[0] == w && ([w] + words)[1..] == words;
  }

  lemma AllSpaceJoins(a: string, b: string)
    requires AllSpace(a) && AllSpace(b)
    ensures AllSpace(a + b)
  {
  }

  lemma SpelledBehindSpace(pre: string, s: string, words: seq<string>)
    requires AllSpace(pre) && Spells(s, words)
    ensures Spells(pre + s, words)
  {
    if words == [] {
      AllSpaceJoins(pre, s);
    } else {
      var i, j :| StartsWith(s, i, j, words[0]) && Spells(s[j..], words[1..]);
      AllSpaceJoins(pre, s[..i]);
      StartsLater(pre, s, i, j, words[0]);
      WordIsSpelled(pre + s, |pre| + i, |pre| + j, words[0], words[1..]);
      assert [words[0]] + words[1..] == words;
    }
  }

  lemma StartsLater(pre: string, s: string, i: int, j: int, w: string)
    requires AllSpace(pre) && StartsWith(s, i, j, w)
    ensures StartsWith(pre + s, |pre| + i, |pre| + j, w) && (pre + s)[|pre| + j..] == s[j..]
  {
    var t, n := pre + s, |pre|;
    assert t[..n + i] == pre + s[..i] && t[n + i..n + j] == s[i..j] && t[n + j..] == s[j..];
  }

  lemma {:induction false} SpelledBeforeSpace(s: string, post: string, words: seq<string>)
    requires AllSpace(post) && Spells(s, words)
    ensures Spells(s + post, words)
    decreases |words|
  {
    if words == [] {
      AllSpaceJoins(s, post);
    } else {
      var i, j :| StartsWith(s, i, j, words[0]) && Spells(s[j..], words[1..]);
      var t := s + post;
      SpelledBeforeSpace(s[j..], post, words[1..]);
      assert t[..i] == s[..i] && t[i..j] == s[i..j] && t[j..] == s[j..] + post;
      assert StartsWith(t, i, j, words[0]);
    }
  }

  /** Trimming first loses no word. */
  lemma TrimmedFieldsAreSpelled(s: string)
    ensures Spells(s, Fields(TrimSpace(s)))
  {
    var pre, post := TrimSplits(s);
    FieldsAreSpelled(TrimSpace(s));
    SpelledInside(pre, TrimSpace(s), post, Fields(TrimSpace(s)));
  }

  lemma SpelledInside(pre: string, s: string, post: string, words: seq<string>)
    requires AllSpace(pre) && AllSpace(post) && Spells(s, words)
    ensures Spells(pre + s + post, words)
  {
    SpelledBehindSpace(pre, s, words);
    SpelledBeforeSpace(pre + s, post, words);
  }

  lemma {:induction false} JoinIsSpelled(words: seq<string>)
    requires forall w | w in words :: IsWord(w)
    ensures Spells(JoinWithSpace(words), words)
  {
    if words != [] {
      assert [words[0]] + words[1..] == words;
      if |words| == 1 {
        WordInFront(words[0], "", words[1..]);
        assert words[0] + "" == words[0];
      } else {
        JoinIsSpelled(words[1..]);
        JoinStartsWithWord(words);
        SpelledBehindSpace(" ", JoinWithSpace(words[1..]), words[1..]);
        WordInFront(words[0], " " + JoinWithSpace(words[1..]), words[1..]);
      }
    }
  }

  lemma WordInFront(w: string, tail: string, words: seq<string>)
    requires IsWord(w) && (tail == "" || IsSpace(tail[0])) && Spells(tail, words)
    ensures Spells(w + tail, [w] + words)
  {
    var s := w + tail;
    assert s[0..|w|] == w && s[|w|..] == tail && s[..0] == "";
    WordIsSpelled(s, 0, |w|, w, words);
  }

  /** All white space there is stands between two visible characters and is a single blank. */
  predicate Tidy(s: string) {
    forall i | 0 <= i < |s| && IsSpace(s[i]) ::
      s[i] == ' ' && 0 < i < |s| - 1 && !IsSpace(s[i - 1]) && !IsSpace(s[i + 1])
  }

  lemma {:induction false} JoinIsTidy(words: seq<string>)
    requires forall w | w in words :: IsWord(w)
    ensures Tidy(JoinWithSpace(words))
    ensures words != [] ==> JoinWithSpace(words) != "" && !IsSpace(JoinWithSpace(words)[0])
  {
    if words != [] {
      var w, s := words[0], JoinWithSpace(words);
      assert IsWord(w) && w[0] in w && w[|w| - 1] in w;
      if |words| == 1 {
        forall i | 0 <= i < |s| ensures !IsSpace(s[i]) { assert s[i] in w; }
      } else {
        var rest := JoinWithSpace(words[1..]);
        JoinIsTidy(words[1..]);
        JoinStartsWithWord(words);
        BlankBetween(w, rest);
      }
    }
  }

  lemma BlankBetween(w: string, rest: string)
    requires IsWord(w) && Tidy(rest) && rest != "" && !IsSpace(rest[0])
    ensures Tidy(w + (" " + rest))
  {
    var s, n := w + (" " + rest), |w|;
    assert s[n] == ' ' && w[n - 1] in w;
    forall i | 0 <= i < n ensures !IsSpace(s[i]) { assert s[i] in w; }
    forall i | n <= i < |s| && IsSpace(s[i])
      ensures s[i] == ' ' && 0 < i < |s| - 1 && !IsSpace(s[i - 1]) && !IsSpace(s[i + 1])
    {
      if i > n {
        assert s[i] == rest[i - n - 1] && s[i - 1] == if i == n + 1 then ' ' else rest[i - n - 2];
        assert s[i + 1] == rest[i - n];
      } else {
        assert s[i - 1] == w[n - 1] && s[i + 1] == rest[0];
      }
    }
  }

  /** Character by character, with the letters a to z turned into A to Z. */
  predicate IsUpperOf(s: string, t: string) {
    && |t| == |s|
    && forall i | 0 <= i < |s| :: t[i] as int == if 97 <= s[i] as int <= 122 then s[i] as int - 32 else s[i] as int
  }

  lemma UpperIsUpper(s: string)
    ensures IsUpperOf(s, ToUpper(s))
  {
  }

  lemma UpperWordIsWord(w: string)
    requires IsWord(w)
    ensures IsWord(ToUpper(w))
  {
    var u := ToUpper(w);
    forall c | c in u ensures !IsSpace(c) {
      var i :| 0 <= i < |u| && u[i] == c;
      UpperKeepsSpaces(w[i]);
      assert w[i] in w;
    }
  }

  /** The words of the one text in upper case, with single blanks between them, are the other text. */
  ghost predicate IsPlateOf(s: string, plate: string) {
    exists words, upper :: SameWords(s, words, plate, upper)
  }

  ghost predicate SameWords(s: string, words: seq<string>, plate: string, upper: seq<string>) {
    && Spells(s, words) && Spells(plate, upper) && Tidy(plate)
    && |upper| == |words| && forall i | 0 <= i < |words| :: IsUpperOf(words[i], upper[i])
  }

  lemma NormalizedText(s: string)
    ensures IsPlateOf(s, ToUpper(JoinWithSpace(Fields(TrimSpace(s)))))
  {
    var words := Fields(TrimSpace(s));
    var upper := UpperWords(words);
    TrimmedFieldsAreSpelled(s);
    UpperOfJoin(words);
    forall w | w in upper ensures IsWord(w) {
      var i :| 0 <= i < |upper| && upper[i] == w;
      assert words[i] in words;
      UpperWordIsWord(words[i]);
    }
    JoinIsSpelled(upper);
    JoinIsTidy(upper);
    forall i | 0 <= i < |words| ensures IsUpperOf(words[i], upper[i]) { UpperIsUpper(words[i]); }
    assert SameWords(s, words, JoinWithSpace(upper), upper);
  }

  /** There is a word exactly when some character is visible. */
  lemma NoWordExactly(s: string)
    ensures ToUpper(JoinWithSpace(Fields(TrimSpace(s)))) == "" <==> AllSpace(s)
  {
    var words := Fields(TrimSpace(s));
    TrimmedFieldsAreSpelled(s);
    JoinIsTidy(words);
    if words != [] { SpelledIsVisible(s, words); }
  }

  lemma SpelledIsVisible(s: string, words: seq<string>)
    requires words != [] && Spells(s, words)
    ensures !AllSpace(s)
  {
    var i, j :| StartsWith(s, i, j, words[0]) && Spells(s[j..], words[1..]);
    assert words[0][0] == s[i] && words[0][0] in words[0];
  }
}
