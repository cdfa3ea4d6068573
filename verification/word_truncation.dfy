/**
 * Word truncation in the text-writer handler:
 *   generatedText.trim().split(/\s+/).slice(0, maxWords).join(" ")
 * with trim, split, slice and join following their ECMAScript definitions.
 */
module WordTruncation {
  import opened Wrappers

  /** ECMAScript WhiteSpace or LineTerminator: the characters `\s` matches and trim() removes. */
  predicate IsSpace(c: char)
  {
    var n := c as int;
    (0x09 <= n <= 0x0D) || n == 0x20 || n == 0xA0 || n == 0x1680 || (0x2000 <= n <= 0x200A)
    || n == 0x2028 || n == 0x2029 || n == 0x202F || n == 0x205F || n == 0x3000 || n == 0xFEFF
  }

  predicate NoSpace(w: string)
  {
    forall i :: 0 <= i < |w| ==> !IsSpace(w[i])
  }

  /** Text made of whitespace only. */
  predicate AllSpace(s: string)
  {
    forall i :: 0 <= i < |s| ==> IsSpace(s[i])
  }

  /** A word: a non-empty run of non-space characters. */
  predicate IsWord(w: string)
  {
    w != [] && NoSpace(w)
  }

  /** Text that starts and ends with a non-space character, or is empty. */
  predicate Trimmed(s: string)
  {
    s == [] || (!IsSpace(s[0]) && !IsSpace(s[|s| - 1]))
  }

  /** String.prototype.trimStart. */
  function TrimStart(s: string): (t: string)
    ensures |t| <= |s| && t == s[|s| - |t|..]
    ensures t == [] || !IsSpace(t[0])
    ensures t == [] ==> AllSpace(s)
  {
    if s != [] && IsSpace(s[0]) then
      var rest := s[1..];
      assert forall i :: 1 <= i < |s| ==> s[i] == rest[i - 1];
      TrimStart(rest)
    else s
  }

  /** String.prototype.trimEnd. */
  function TrimEnd(s: string): (t: string)
    ensures |t| <= |s| && t == s[..|t|]
    ensures t == [] || !IsSpace(t[|t| - 1])
    ensures s != [] && !IsSpace(s[0]) ==> t != [] && t[0] == s[0]
  {
    if s != [] && IsSpace(s[|s| - 1]) then TrimEnd(s[..|s| - 1]) else s
  }

  /** String.prototype.trim: strips both ends, and leaves trimmed text as it is. */
  function Trim(s: string): (t: string)
    ensures Trimmed(t)
    ensures Trimmed(s) ==> t == s
  {
    TrimEnd(TrimStart(s))
  }

  /** trimStart cuts only whitespace from the front. */
  lemma {:induction false} TrimStartCutsSpace(s: string)
    ensures AllSpace(s[..|s| - |TrimStart(s)|])
  {
    if s != [] && IsSpace(s[0]) {
      TrimStartCutsSpace(s[1..]);
      var k := |s| - |TrimStart(s)|;
      assert forall i :: 1 <= i < k ==> s[..k][i] == s[1..][..k - 1][i - 1];
    }
  }

  /** trimEnd cuts only whitespace from the back. */
  lemma {:induction false} TrimEndCutsSpace(s: string)
    ensures AllSpace(s[|TrimEnd(s)|..])
  {
    if s != [] && IsSpace(s[|s| - 1]) {
      var init := s[..|s| - 1];
      TrimEndCutsSpace(init);
      var k := |TrimEnd(s)|;
      assert forall i :: 0 <= i < |s| - 1 - k ==> s[k..][i] == init[k..][i];
    }
  }

  /**
   * trim returns a slice `s[i..j]` of the text with only whitespace before
   * `i` and after `j`.
   */
  lemma TrimCutsSpace(s: string)
    ensures exists i, j :: 0 <= i <= j <= |s| && Trim(s) == s[i..j] && AllSpace(s[..i]) && AllSpace(s[j..])
  {
    var front := TrimStart(s);
    var t := Trim(s);
    TrimStartCutsSpace(s);
    TrimEndCutsSpace(front);
    var i := |s| - |front|;
    var j := i + |t|;
    assert t == s[i..j];
    assert s[j..] == front[|t|..];
  }

  /**
   * `s.split(/\s+/)` continued from the middle of a piece: `piece` holds the
   * characters of the current piece read so far. Each maximal whitespace
   * run separates two pieces; leading or trailing whitespace gives an empty
   * first or last piece.
   */
  function SplitFrom(s: string, piece: string): (pieces: seq<string>)
    ensures pieces != []
    decreases |s|
  {
    if s == [] then [piece]
    else if IsSpace(s[0]) then
      assert TrimStart(s) == TrimStart(s[1..]);
      [piece] + SplitFrom(TrimStart(s), "")
    else SplitFrom(s[1..], piece + [s[0]])
  }

  /**
   * `s.split(/\s+/)`: never an empty list, [""] for the empty string, only
   * words for non-empty trimmed text; joined again with " ", the pieces
   * give the text with each whitespace run collapsed to one space.
   */
  function SplitOnSpaces(s: string): (pieces: seq<string>)
    ensures pieces != []
    ensures s == [] ==> pieces == [""]
    ensures s != [] && Trimmed(s) ==> forall i :: 0 <= i < |pieces| ==> IsWord(pieces[i])
    ensures Join(pieces) == CollapseRuns(s)
  {
    JoinSplitFrom(s, "");
    assert "" + CollapseRuns(s) == CollapseRuns(s);
    if s != [] && Trimmed(s) then
      SplitFromWords(s, "");
      SplitFrom(s, "")
    else
      SplitFrom(s, "")
  }

  /** `ws.join(" ")`. */
  function Join(ws: seq<string>): string
  {
    if ws == [] then ""
    else if |ws| == 1 then ws[0]
    else ws[0] + " " + Join(ws[1..])
  }

  /** A non-empty list of words joins into non-empty trimmed text. */
  lemma {:induction false} JoinOfWordsTrimmed(ws: seq<string>)
    requires ws != [] && forall i :: 0 <= i < |ws| ==> IsWord(ws[i])
    ensures Join(ws) != [] && Trimmed(Join(ws))
    ensures Join(ws)[0] == ws[0][0]
  {
    if |ws| > 1 {
      JoinOfWordsTrimmed(ws[1..]);
      var j := Join(ws[1..]);
      assert Join(ws) == ws[0] + " " + j;
      assert Join(ws)[|Join(ws)| - 1] == j[|j| - 1];
    }
  }

  /**
   * The end index `slice(0, end)` uses on a list of length `len`: absent
   * keeps all, a non-negative end is capped at the length, and a negative
   * end drops that many from the back (all of them, if there are fewer).
   */
  function SliceEnd(len: nat, end: Option<int>): (k: nat)
    ensures k <= len
    ensures end.None? ==> k == len
    ensures end.Some? && 0 <= end.value ==> k <= end.value && (k == end.value || k == len)
    ensures end.Some? && end.value < 0 ==> (k + -end.value == len || (k == 0 && len < -end.value))
  {
    match end
    case None => len
    case Some(e) =>
      if e < 0 then (if len + e < 0 then 0 else len + e)
      else if e < len then e else len
  }

  /**
   * `words.slice(0, maxWords)`: a prefix of the words, all of them when the
   * limit is absent or at least their number, at most `maxWords` of them
   * for a non-negative limit.
   */
  function TakeWords(words: seq<string>, maxWords: Option<int>): (kept: seq<string>)
    ensures |kept| <= |words| && kept == words[..|kept|]
    ensures maxWords.None? || maxWords.value >= |words| ==> kept == words
    ensures maxWords.Some? && 0 <= maxWords.value ==> |kept| == (if maxWords.value < |words| then maxWords.value else |words|)
  {
    words[..SliceEnd(|words|, maxWords)]
  }

  /**
   * The text-writer truncation of the generated text: trimmed, empty for
   * blank text and for a limit of 0.
   */
  function Truncate(text: string, maxWords: Option<int>): (r: string)
    ensures Trimmed(r)
    ensures Trim(text) == [] ==> r == []
    ensures maxWords == Some(0) ==> r == []
  {
    var t := Trim(text);
    var pieces := SplitOnSpaces(t);
    var kept := TakeWords(pieces, maxWords);
    assert t != [] ==> forall i :: 0 <= i < |kept| ==> IsWord(kept[i]) by {
      if t != [] {
        assert forall i :: 0 <= i < |kept| ==> kept[i] == pieces[i];
      }
    }
    assert t == [] ==> kept == [] || kept == [""];
    if kept != [] && t != [] then
      JoinOfWordsTrimmed(kept);
      Join(kept)
    else
      Join(kept)
  }

  /** Reference: the text with every whitespace run replaced by one space. */
  function CollapseRuns(s: string): string
    decreases |s|
  {
    if s == [] then []
    else if IsSpace(s[0]) then
      assert TrimStart(s) == TrimStart(s[1..]);
      " " + CollapseRuns(TrimStart(s))
    else [s[0]] + CollapseRuns(s[1..])
  }

  /** Splitting trimmed non-empty text yields only words. */
  lemma {:induction false} SplitFromWords(s: string, piece: string)
    requires NoSpace(piece)
    requires s == [] ==> piece != []
    requires s != [] ==> !IsSpace(s[|s| - 1])
    requires s != [] && IsSpace(s[0]) ==> piece != []
    ensures forall i :: 0 <= i < |SplitFrom(s, piece)| ==> IsWord(SplitFrom(s, piece)[i])
    decreases |s|
  {
    if s == [] {
    } else if IsSpace(s[0]) {
      var t := TrimStart(s);
      assert t != [] by {
        assert !IsSpace(s[|s| - 1]);
      }
      assert t[|t| - 1] == s[|s| - 1];
      SplitFromWords(t, "");
      assert SplitFrom(s, piece) == [piece] + SplitFrom(t, "");
    } else {
      SplitFromWords(s[1..], piece + [s[0]]);
    }
  }

  /** Joining the pieces again puts one space where each whitespace run was. */
  lemma {:induction false} JoinSplitFrom(s: string, piece: string)
    ensures Join(SplitFrom(s, piece)) == piece + CollapseRuns(s)
    decreases |s|, 1
  {
    if s == [] {
      assert piece + [] == piece;
    } else if IsSpace(s[0]) {
      JoinSplitFromSpace(s, piece);
    } else {
      JoinSplitFromChar(s, piece);
    }
  }

  /** Joining a word in front of a non-empty list puts one space after it. */
  lemma JoinCons(w: string, rest: seq<string>)
    requires rest != []
    ensures Join([w] + rest) == w + " " + Join(rest)
  {
    var all := [w] + rest;
    assert all[0] == w && all[1..] == rest;
  }

  /** JoinSplitFrom when the text starts with whitespace: the run closes the piece. */
  lemma {:induction false} JoinSplitFromSpace(s: string, piece: string)
    requires s != [] && IsSpace(s[0])
    ensures Join(SplitFrom(s, piece)) == piece + CollapseRuns(s)
    decreases |s|, 0
  {
    var tail := TrimStart(s);
    var rest := SplitFrom(tail, "");
    var c := CollapseRuns(tail);
    assert SplitFrom(s, piece) == [piece] + rest;
    assert CollapseRuns(s) == " " + c;
    JoinSplitFrom(tail, "");
    assert "" + c == c;
    JoinCons(piece, rest);
  }

  /** JoinSplitFrom when the text starts with a non-space character: it joins the piece. */
  lemma {:induction false} JoinSplitFromChar(s: string, piece: string)
    requires s != [] && !IsSpace(s[0])
    ensures Join(SplitFrom(s, piece)) == piece + CollapseRuns(s)
    decreases |s|, 0
  {
    var next := piece + [s[0]];
    var c := CollapseRuns(s[1..]);
    JoinSplitFrom(s[1..], next);
    assert SplitFrom(s, piece) == SplitFrom(s[1..], next);
    assert CollapseRuns(s) == [s[0]] + c;
    assert next + c == piece + ([s[0]] + c);
  }

  /** Splitting skips over a leading run of non-space characters into the current piece. */
  lemma {:induction false} SplitFromAppend(w: string, s: string, piece: string)
    requires NoSpace(w)
    ensures SplitFrom(w + s, piece) == SplitFrom(s, piece + w)
    decreases |w|
  {
    if w == [] {
      assert w + s == s;
      assert piece + w == piece;
    } else {
      assert (w + s)[0] == w[0];
      assert (w + s)[1..] == w[1..] + s;
      SplitFromAppend(w[1..], s, piece + [w[0]]);
      assert piece + [w[0]] + w[1..] == piece + w;
    }
  }

  /** Round trip: splitting joined words gives the words back, the first one after `piece`. */
  lemma {:induction false} SplitJoinFrom(ws: seq<string>, piece: string)
    requires ws != [] && forall i :: 0 <= i < |ws| ==> IsWord(ws[i])
    ensures SplitFrom(Join(ws), piece) == [piece + ws[0]] + ws[1..]
  {
    if |ws| == 1 {
      SplitFromAppend(ws[0], "", piece);
      assert ws[0] + "" == ws[0];
    } else {
      var j := Join(ws[1..]);
      JoinOfWordsTrimmed(ws[1..]);
      assert Join(ws) == ws[0] + " " + j;
      assert ws[0] + " " + j == ws[0] + (" " + j);
      SplitFromAppend(ws[0], " " + j, piece);
      assert (" " + j)[1..] == j;
      assert TrimStart(" " + j) == j;
      SplitJoinFrom(ws[1..], "");
      assert "" + ws[1] == ws[1];
      assert [ws[1]] + ws[2..] == ws[1..];
    }
  }

  /** The words of `s`: `s.trim().split(/\s+/)`, except that blank text has none. */
  function Words(s: string): (ws: seq<string>)
    ensures forall i :: 0 <= i < |ws| ==> IsWord(ws[i])
    ensures Join(ws) == CollapseRuns(Trim(s))
    ensures ws == [] <==> Trim(s) == []
  {
    var t := Trim(s);
    if t == [] then [] else SplitOnSpaces(t)
  }

  /** Splitting a non-empty list of words, joined by single spaces, gives the list back. */
  lemma SplitJoin(ws: seq<string>)
    requires ws != [] && forall i :: 0 <= i < |ws| ==> IsWord(ws[i])
    ensures SplitOnSpaces(Join(ws)) == ws
    ensures Words(Join(ws)) == ws
  {
    SplitFromJoin(ws);
    JoinOfWordsTrimmed(ws);
    WordsOfTrimmed(Join(ws));
  }

  /** SplitJoinFrom from an empty piece: the words come back as they were. */
  lemma SplitFromJoin(ws: seq<string>)
    requires ws != [] && forall i :: 0 <= i < |ws| ==> IsWord(ws[i])
    ensures SplitFrom(Join(ws), "") == ws
  {
    SplitJoinFrom(ws, "");
    assert "" + ws[0] == ws[0];
    assert [ws[0]] + ws[1..] == ws;
  }

  /** Non-empty trimmed text: its words are exactly what split(/\s+/) gives. */
  lemma WordsOfTrimmed(t: string)
    requires t != [] && Trimmed(t)
    ensures Words(t) == SplitOnSpaces(t)
  {
    assert Trim(t) == t;
  }

  /**
   * The truncated text is the first words of the trimmed text (as many as
   * `slice(0, maxWords)` keeps) joined by single spaces, and those are its
   * own words again; a non-negative `maxWords` bounds their number.
   */
  lemma TruncatedWords(text: string, maxWords: Option<int>)
    ensures Truncate(text, maxWords) == Join(TakeWords(Words(text), maxWords))
    ensures Words(Truncate(text, maxWords)) == TakeWords(Words(text), maxWords)
    ensures maxWords.Some? && maxWords.value >= 0 ==>
              |Words(Truncate(text, maxWords))| <= maxWords.value
  {
    var t := Trim(text);
    if t == [] {
      var kept := TakeWords(SplitOnSpaces(t), maxWords);
      assert kept == [] || kept == [""];
      assert Truncate(text, maxWords) == "";
      assert Trim("") == "";
    } else {
      var kept := TakeWords(Words(text), maxWords);
      if kept == [] {
        assert Trim("") == "";
      } else {
        SplitJoin(kept);
      }
    }
  }

  /** With no limit, or one of at least the word count, every word is kept. */
  lemma KeepsAllWords(text: string, maxWords: Option<int>)
    requires maxWords.None? || maxWords.value >= |Words(text)|
    ensures Truncate(text, maxWords) == Join(Words(text))
    ensures Truncate(text, maxWords) == CollapseRuns(Trim(text))
  {
    var ws := Words(text);
    TruncatedWords(text, maxWords);
    assert SliceEnd(|ws|, maxWords) == |ws|;
    assert TakeWords(ws, maxWords) == ws;
  }

  /** For any limit that is absent or non-negative, truncating twice is truncating once. */
  lemma TruncateIdempotent(text: string, maxWords: Option<int>)
    requires maxWords.None? || maxWords.value >= 0
    ensures Truncate(Truncate(text, maxWords), maxWords) == Truncate(text, maxWords)
  {
    var once := Truncate(text, maxWords);
    var kept := TakeWords(Words(text), maxWords);
    TruncatedWords(text, maxWords);
    assert once == Join(kept) && Words(once) == kept;
    TruncatedWords(once, maxWords);
    assert Truncate(once, maxWords) == Join(TakeWords(kept, maxWords));
    assert SliceEnd(|kept|, maxWords) == |kept|;
    assert TakeWords(kept, maxWords) == kept;
  }
}
