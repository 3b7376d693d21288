/**
 * `formatCategoryName`, written out identically in the product listing page and
 * the category page: split on single spaces, upper-case the first character of
 * each word, join with single spaces.
 */
module Labels {
  import opened Text

  /** `s.split(' ')`: consecutive, leading and trailing spaces give empty words. */
  function Split(s: string): (r: seq<string>)
    ensures |r| >= 1
  {
    if s == [] then [""]
    else
      var rest := Split(s[1..]);
      if s[0] == ' ' then [""] + rest else [[s[0]] + rest[0]] + rest[1..]
  }

  /** `word.charAt(0).toUpperCase() + word.slice(1)`. */
  function Capitalize(w: string): string {
    if w == [] then [] else [ToUpper(w[0])] + w[1..]
  }

  function CapitalizeAll(ws: seq<string>): (r: seq<string>)
    ensures |r| == |ws| && forall k :: 0 <= k < |ws| ==> r[k] == Capitalize(ws[k])
  {
    seq(|ws|, k requires 0 <= k < |ws| => Capitalize(ws[k]))
  }

  /** `words.join(' ')`. */
  function Join(ws: seq<string>): string {
    if ws == [] then []
    else if |ws| == 1 then ws[0]
    else ws[0] + " " + Join(ws[1..])
  }

  /**
   * `formatCategoryName`: split on single spaces, upper-case each word's first
   * character, join with single spaces. It is the reference capitalizer below.
   */
  function FormatCategoryName(s: string): (r: string)
    ensures r == CapitalizeWords(s, true)
  {
    FormatIsCapitalizeWords(s);
    Join(CapitalizeAll(Split(s)))
  }

  /**
   * The reference capitalizer, one character at a time: a character is upper-cased
   * when it starts the string (`atStart`) or follows a space.
   */
  function CapitalizeWords(s: string, atStart: bool): (r: string)
    ensures |r| == |s|
  {
    if s == [] then []
    else [if atStart then ToUpper(s[0]) else s[0]] + CapitalizeWords(s[1..], s[0] == ' ')
  }

  /** Prepending a character to the first word prepends it to the joined string. */
  lemma JoinPrepend(c: char, w: string, ws: seq<string>)
    ensures Join([[c] + w] + ws) == [c] + Join([w] + ws)
  {
    if ws != [] {
      assert ([[c] + w] + ws)[1..] == ws;
      assert ([w] + ws)[1..] == ws;
    }
  }

  /** A leading empty word contributes nothing but its separator. */
  lemma JoinEmptyFirst(ws: seq<string>)
    requires ws != []
    ensures Join([""] + ws) == " " + Join(ws)
  {
    assert ([""] + ws)[1..] == ws;
  }

  /** The split-map-join pipeline agrees with the reference capitalizer on `t`, with the first word capitalized or not. */
  predicate PipelineAgrees(t: string) {
    Join(CapitalizeAll(Split(t))) == CapitalizeWords(t, true) &&
    Join([Split(t)[0]] + CapitalizeAll(Split(t)[1..])) == CapitalizeWords(t, false)
  }

  /** A leading space starts an empty word. */
  lemma PipelineSpaceStep(t: string)
    requires t != [] && t[0] == ' ' && PipelineAgrees(t[1..])
    ensures PipelineAgrees(t)
  {
    var r, rest := Split(t), Split(t[1..]);
    assert r == [""] + rest;
    assert CapitalizeAll(r) == [""] + CapitalizeAll(rest);
    JoinEmptyFirst(CapitalizeAll(rest));
    assert r[1..] == rest;
  }

  /** A leading non-space character joins the first word. */
  lemma PipelineLetterStep(t: string)
    requires t != [] && t[0] != ' ' && PipelineAgrees(t[1..])
    ensures PipelineAgrees(t)
  {
    var r, rest := Split(t), Split(t[1..]);
    assert r == [[t[0]] + rest[0]] + rest[1..];
    assert CapitalizeAll(r) == [[ToUpper(t[0])] + rest[0]] + CapitalizeAll(rest[1..]);
    JoinPrepend(ToUpper(t[0]), rest[0], CapitalizeAll(rest[1..]));
    assert r[0] == [t[0]] + rest[0] && r[1..] == rest[1..];
    JoinPrepend(t[0], rest[0], CapitalizeAll(rest[1..]));
  }

  /** The split-map-join pipeline is the reference capitalizer. */
  lemma {:induction false} FormatIsCapitalizeWords(t: string)
    ensures PipelineAgrees(t)
  {
    if t != [] {
      FormatIsCapitalizeWords(t[1..]);
      if t[0] == ' ' {
        PipelineSpaceStep(t);
      } else {
        PipelineLetterStep(t);
      }
    }
  }

  /** Character by character: upper-cased at the start and after a space, unchanged elsewhere. */
  lemma {:induction false} CapitalizeWordsAt(s: string, atStart: bool, i: nat)
    requires i < |s|
    ensures CapitalizeWords(s, atStart)[i] ==
      if (i == 0 && atStart) || (i > 0 && s[i - 1] == ' ') then ToUpper(s[i]) else s[i]
  {
    if i > 0 {
      CapitalizeWordsAt(s[1..], s[0] == ' ', i - 1);
    }
  }

  /** The label keeps the length and exactly the spaces of the category name. */
  lemma FormatKeepsShape(s: string)
    ensures |FormatCategoryName(s)| == |s|
    ensures forall i :: 0 <= i < |s| ==> (FormatCategoryName(s)[i] == ' ' <==> s[i] == ' ')
  {
    FormatIsCapitalizeWords(s);
    forall i | 0 <= i < |s| ensures FormatCategoryName(s)[i] == ' ' <==> s[i] == ' ' {
      CapitalizeWordsAt(s, true, i);
    }
  }

  /** The label of a name is the name with its word-initial characters upper-cased. */
  lemma FormatCategoryNameAt(s: string, i: nat)
    requires i < |s|
    ensures |FormatCategoryName(s)| == |s|
    ensures FormatCategoryName(s)[i] == if i == 0 || s[i - 1] == ' ' then ToUpper(s[i]) else s[i]
  {
    FormatIsCapitalizeWords(s);
    CapitalizeWordsAt(s, true, i);
  }

  lemma {:induction false} CapitalizeWordsIdempotent(s: string, atStart: bool)
    ensures CapitalizeWords(CapitalizeWords(s, atStart), atStart) == CapitalizeWords(s, atStart)
  {
    if s != [] {
      CapitalizeWordsIdempotent(s[1..], s[0] == ' ');
      var r := CapitalizeWords(s, atStart);
      assert r[0] == ' ' <==> s[0] == ' ';
      assert r[1..] == CapitalizeWords(s[1..], s[0] == ' ');
    }
  }

  /** Formatting a label again changes nothing. */
  lemma FormatIdempotent(s: string)
    ensures FormatCategoryName(FormatCategoryName(s)) == FormatCategoryName(s)
  {
    FormatIsCapitalizeWords(s);
    FormatIsCapitalizeWords(FormatCategoryName(s));
    CapitalizeWordsIdempotent(s, true);
  }

  /** Upper-casing a character and lowering it again is lowering it. */
  lemma LowerOfUpper(c: char)
    ensures ToLower(ToUpper(c)) == ToLower(c)
  {
  }

  /** A label differs from its name only in letter case. */
  lemma FormatKeepsLowered(s: string)
    ensures LowerStr(FormatCategoryName(s)) == LowerStr(s)
  {
    FormatKeepsShape(s);
    forall i | 0 <= i < |s| ensures LowerStr(FormatCategoryName(s))[i] == LowerStr(s)[i] {
      FormatCategoryNameAt(s, i);
      LowerOfUpper(s[i]);
    }
  }
}
