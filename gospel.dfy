/**
 * The gospel route (app/api/evangile/route.ts): what `GET` does with the
 * AELF readings of the day once they are fetched. It picks the first mass
 * and its first reading of type "evangile", turns the HTML of that reading
 * into plain text with a chain of regular-expression replacements, drops
 * the closing acclamation, and extracts a short verse: the first passage
 * between « and », or else the first two long sentences. The network call
 * and the clock are parameters: `fetched` is `None` when the request fails,
 * answers with an error status, or does not parse.
 */
module GospelRoute {
  import opened Wrappers
  import opened Strings

  // ---------------------------------------------------------------------------
  // The AELF payload and the route's answers

  datatype Lecture = Lecture(kind: string, titre: string, ref: string, contenu: string, introLue: Option<string>)

  datatype Messe = Messe(nom: string, lectures: Option<seq<Lecture>>)

  datatype Informations = Informations(date: string, jourLiturgiqueNom: Option<string>, fete: Option<string>)

  datatype AelfResponse = AelfResponse(informations: Option<Informations>, messes: Option<seq<Messe>>)

  /** The JSON body of a successful answer. */
  datatype Reading = Reading(date: string, title: string, intro: string, reference: string,
                             liturgicalInfo: string, shortVerse: string, fullText: string)

  datatype Reply =
    | Found(reading: Reading)
    | NotFound(error: string)
    | ServerError(error: string)

  const MesseNotFound := "Messe non trouvée pour cette date"
  const EvangileNotFound := "Évangile non trouvé pour cette date"
  const Unreachable := "Impossible de récupérer l'évangile. Vérifiez votre connexion."
  const DefaultTitle := "Évangile du jour"
  const DefaultIntro := "Évangile"
  const Acclamation := "Acclamons la Parole de Dieu"
  const ParoleDuSeigneur := "Parole du Seigneur"

  function Status(r: Reply): int {
    match r
    case Found(_) => 200
    case NotFound(_) => 404
    case ServerError(_) => 500
  }

  // ---------------------------------------------------------------------------
  // Searching

  /** The first index at or after `i` holding `c`. */
  function FirstIndexFrom(s: string, c: char, i: nat): (r: Option<nat>)
    requires i <= |s|
    ensures r.Some? ==> i <= r.value < |s| && s[r.value] == c && forall k :: i <= k < r.value ==> s[k] != c
    ensures r.None? ==> forall k :: i <= k < |s| ==> s[k] != c
    decreases |s| - i
  {
    if i == |s| then None
    else if s[i] == c then Some(i)
    else FirstIndexFrom(s, c, i + 1)
  }

  /** `lectures.find(l => l.type === 'evangile')`, as an index. */
  function FindEvangile(lectures: seq<Lecture>, i: nat): (r: Option<nat>)
    requires i <= |lectures|
    ensures r.Some? ==> i <= r.value < |lectures| && lectures[r.value].kind == "evangile" &&
                        forall k :: i <= k < r.value ==> lectures[k].kind != "evangile"
    ensures r.None? ==> forall k :: i <= k < |lectures| ==> lectures[k].kind != "evangile"
    decreases |lectures| - i
  {
    if i == |lectures| then None
    else if lectures[i].kind == "evangile" then Some(i)
    else FindEvangile(lectures, i + 1)
  }

  // ---------------------------------------------------------------------------
  // Characters and runs

  /** A letter compared the way the `i` flag compares ASCII letters. */
  function LowerAscii(c: char): char {
    if 'A' <= c <= 'Z' then (c as int + 32) as char else c
  }

  predicate SameIgnoringCase(a: string, b: string)
    decreases |a|
  {
    |a| == |b| && (a == [] || (LowerAscii(a[0]) == LowerAscii(b[0]) && SameIgnoringCase(a[1..], b[1..])))
  }

  lemma {:induction false} SameIgnoringCaseRefl(a: string)
    ensures SameIgnoringCase(a, a)
    decreases |a|
  {
    if a != [] {
      SameIgnoringCaseRefl(a[1..]);
    }
  }

  /** The length of the run of white space `\s*` at the start of `s`. */
  function SpaceRun(s: string): (n: nat)
    ensures n <= |s|
    ensures forall k :: 0 <= k < n ==> IsSpace(s[k])
    ensures n < |s| ==> !IsSpace(s[n])
    decreases |s|
  {
    if s != [] && IsSpace(s[0]) then 1 + SpaceRun(s[1..]) else 0
  }

  // ---------------------------------------------------------------------------
  // The replacements of the clean-up, in their order

  /** `/<br\s*\/?>/i` matches the first `n` characters of `s`: `<`, the
      letters `b` and `r` in either case, white space, an optional `/`, and
      `>`. */
  predicate BrAt(s: string, n: nat) {
    4 <= n <= |s| && s[0] == '<' && LowerAscii(s[1]) == 'b' && LowerAscii(s[2]) == 'r' && s[n - 1] == '>' &&
    forall k :: 3 <= k < n - 1 ==> IsSpace(s[k]) || (k == n - 2 && s[k] == '/')
  }

  /** The length of a match of `/<br\s*\/?>/i` at the start of `s`. */
  function BrLength(s: string): (r: Option<nat>)
    ensures r.Some? ==> BrAt(s, r.value)
  {
    if |s| >= 3 && s[0] == '<' && LowerAscii(s[1]) == 'b' && LowerAscii(s[2]) == 'r' then
      var k := 3 + SpaceRun(s[3..]);
      var k2 := if k < |s| && s[k] == '/' then k + 1 else k;
      if k2 < |s| && s[k2] == '>' then Some(k2 + 1) else None
    else None
  }

  /** The match is the only one: whenever the pattern matches at the start
      of `s`, `BrLength` finds it, so `None` means there is no match. */
  lemma BrLengthComplete(s: string, n: nat)
    requires BrAt(s, n)
    ensures BrLength(s) == Some(n)
  {
    var m := SpaceRun(s[3..]);
    assert forall k :: 3 <= k < 3 + m ==> IsSpace(s[k]) by {
      forall k | 3 <= k < 3 + m ensures IsSpace(s[k]) {
        assert s[k] == s[3..][k - 3];
      }
    }
    assert !IsSpace(s[n - 1]);
    if 3 + m < |s| {
      assert s[3 + m] == s[3..][m];
    }
  }

  /** `.replace(/<br\s*\/?>/gi, ' ')`. */
  function ReplaceBr(s: string): (r: string)
    decreases |s|
  {
    if s == [] then ""
    else match BrLength(s)
      case Some(n) => " " + ReplaceBr(s[n..])
      case None => [s[0]] + ReplaceBr(s[1..])
  }

  /** A literal pattern matches at the start of `s`, with or without the
      `i` flag. */
  predicate MatchesAt(s: string, pat: string, ignoreCase: bool) {
    |pat| <= |s| && (if ignoreCase then SameIgnoringCase(s[..|pat|], pat) else s[..|pat|] == pat)
  }

  /** `.replace(pattern, rep)` for a global pattern made of literal
      characters, matched with or without the `i` flag. */
  function ReplaceLiteral(s: string, pat: string, rep: string, ignoreCase: bool): (r: string)
    requires pat != []
    ensures forall c :: c in r ==> c in s || c in rep
    decreases |s|
  {
    if s == [] then ""
    else if MatchesAt(s, pat, ignoreCase) then
      rep + ReplaceLiteral(s[|pat|..], pat, rep, ignoreCase)
    else [s[0]] + ReplaceLiteral(s[1..], pat, rep, ignoreCase)
  }

  /** No `<` is followed, anywhere later, by a `>`: nothing that `/<[^>]*>/`
      could match is left. */
  predicate NoTag(s: string)
    decreases |s|
  {
    s == [] || ((s[0] == '<' ==> '>' !in s[1..]) && NoTag(s[1..]))
  }

  /** `.replace(/<[^>]*>/g, '')`: from each `<` that has a `>` after it, up
      to the first such `>`, is removed. */
  function StripTags(s: string): (r: string)
    ensures NoTag(r)
    ensures forall c :: c in r ==> c in s
    decreases |s|
  {
    if s == [] then ""
    else if s[0] == '<' && FirstIndexFrom(s, '>', 1).Some? then
      StripTags(s[FirstIndexFrom(s, '>', 1).value + 1..])
    else
      var rest := StripTags(s[1..]);
      assert ([s[0]] + rest)[1..] == rest;
      [s[0]] + rest
  }

  /** Every white-space character is a plain space. */
  predicate PlainSpaces(s: string) {
    forall i :: 0 <= i < |s| ==> IsSpace(s[i]) ==> s[i] == ' '
  }

  /** No two white-space characters in a row. */
  predicate NoDoubleSpace(s: string) {
    forall i :: 0 < i < |s| ==> !IsSpace(s[i - 1]) || !IsSpace(s[i])
  }

  /** `.replace(/\s+/g, ' ')`: each run of white space becomes one space. */
  function CollapseSpaces(s: string): (r: string)
    ensures PlainSpaces(r) && NoDoubleSpace(r)
    ensures s != [] ==> r != [] && r[0] == (if IsSpace(s[0]) then ' ' else s[0])
    ensures forall c :: c in r ==> c in s || c == ' '
    decreases |s|
  {
    if s == [] then ""
    else if IsSpace(s[0]) then
      var n := SpaceRun(s);
      var rest := CollapseSpaces(s[n..]);
      assert forall i :: 0 < i < |rest| + 1 ==> (" " + rest)[i] == rest[i - 1];
      " " + rest
    else
      var rest := CollapseSpaces(s[1..]);
      assert forall i :: 0 < i < |rest| + 1 ==> ([s[0]] + rest)[i] == rest[i - 1];
      [s[0]] + rest
  }

  /** `.replace(/\n\s+/g, '\n')`. */
  function CleanNewlines(s: string): (r: string)
    decreases |s|
  {
    if s == [] then ""
    else if s[0] == '\n' && |s| > 1 && IsSpace(s[1]) then "\n" + CleanNewlines(s[1 + SpaceRun(s[1..])..])
    else [s[0]] + CleanNewlines(s[1..])
  }

  /** The clean-up of `evangile.contenu`: line breaks to spaces, paragraph
      tags, the remaining tags, `&nbsp;`, white space, then `trim`. */
  function Clean(contenu: string): string {
    var noBr := ReplaceBr(contenu);
    var noP := ReplaceLiteral(noBr, "<p>", "", true);
    var breaks := ReplaceLiteral(noP, "</p>", "\n", true);
    var noTags := StripTags(breaks);
    var noNbsp := ReplaceLiteral(noTags, "&nbsp;", " ", false);
    Trim(CleanNewlines(CollapseSpaces(noNbsp)))
  }

  // ---------------------------------------------------------------------------
  // What the clean-up guarantees

  lemma {:induction false} NoTagSuffix(s: string, k: nat)
    requires NoTag(s) && k <= |s|
    ensures NoTag(s[k..])
    decreases k
  {
    if k > 0 {
      NoTagSuffix(s[1..], k - 1);
      assert s[1..][k - 1..] == s[k..];
    }
  }

  lemma {:induction false} NoTagPrefix(s: string, k: nat)
    requires NoTag(s) && k <= |s|
    ensures NoTag(s[..k])
    decreases |s|
  {
    if k > 0 {
      NoTagPrefix(s[1..], k - 1);
      assert s[..k][1..] == s[1..][..k - 1];
      if s[0] == '<' {
        assert forall c :: c in s[1..][..k - 1] ==> c in s[1..];
      }
    }
  }

  /** A text with no `<` in front keeps a tag-free rest tag-free. */
  lemma {:induction false} NoTagAppend(a: string, b: string)
    requires '<' !in a && NoTag(b)
    ensures NoTag(a + b)
    decreases |a|
  {
    if a != [] {
      assert a[0] in a && forall c :: c in a[1..] ==> c in a;
      NoTagAppend(a[1..], b);
      assert (a + b)[0] == a[0] && (a + b)[1..] == a[1..] + b;
    } else {
      assert a + b == b;
    }
  }

  /** Replacing literal text by text without brackets keeps a tag-free text
      tag-free. */
  lemma {:induction false} ReplaceLiteralNoTag(s: string, pat: string, rep: string, ignoreCase: bool)
    requires pat != [] && '<' !in rep && '>' !in rep && NoTag(s)
    ensures NoTag(ReplaceLiteral(s, pat, rep, ignoreCase))
    decreases |s|
  {
    if s == [] {
    } else if MatchesAt(s, pat, ignoreCase) {
      NoTagSuffix(s, |pat|);
      ReplaceLiteralNoTag(s[|pat|..], pat, rep, ignoreCase);
      NoTagAppend(rep, ReplaceLiteral(s[|pat|..], pat, rep, ignoreCase));
    } else {
      var rest := ReplaceLiteral(s[1..], pat, rep, ignoreCase);
      ReplaceLiteralNoTag(s[1..], pat, rep, ignoreCase);
      assert ([s[0]] + rest)[1..] == rest;
    }
  }

  /** Collapsing white space keeps a tag-free text tag-free. */
  lemma {:induction false} CollapseNoTag(s: string)
    requires NoTag(s)
    ensures NoTag(CollapseSpaces(s))
    decreases |s|
  {
    if s == [] {
    } else if IsSpace(s[0]) {
      NoTagSuffix(s, SpaceRun(s));
      CollapseNoTag(s[SpaceRun(s)..]);
      NoTagAppend(" ", CollapseSpaces(s[SpaceRun(s)..]));
    } else {
      var rest := CollapseSpaces(s[1..]);
      CollapseNoTag(s[1..]);
      assert ([s[0]] + rest)[1..] == rest;
    }
  }

  /** Without a line break, `/\n\s+/` has nothing to replace. */
  lemma {:induction false} CleanNewlinesNoOp(s: string)
    requires '\n' !in s
    ensures CleanNewlines(s) == s
    decreases |s|
  {
    if s != [] {
      CleanNewlinesNoOp(s[1..]);
      assert s == [s[0]] + s[1..];
    }
  }

  /** `trim` keeps a slice of its input. */
  lemma TrimIsSlice(s: string)
    ensures |Trim(s)| <= |TrimEnd(s)| <= |s|
    ensures Trim(s) == s[|TrimEnd(s)| - |Trim(s)|..|TrimEnd(s)|]
  {
    var e := TrimEnd(s);
    TrimEndDrops(s);
    TrimStartDrops(e);
  }

  /** The three properties of the clean text that a slice keeps. */
  predicate Tidy(s: string) {
    NoTag(s) && PlainSpaces(s) && NoDoubleSpace(s)
  }

  lemma TidySlice(s: string, lo: nat, hi: nat)
    requires Tidy(s) && lo <= hi <= |s|
    ensures Tidy(s[lo..hi])
  {
    NoTagSuffix(s, lo);
    NoTagPrefix(s[lo..], hi - lo);
    assert s[lo..][..hi - lo] == s[lo..hi];
    forall i | 0 < i < hi - lo
      ensures !IsSpace(s[lo..hi][i - 1]) || !IsSpace(s[lo..hi][i])
    {
      assert s[lo..hi][i - 1] == s[lo + i - 1] && s[lo..hi][i] == s[lo + i];
    }
  }

  lemma TrimTidy(s: string)
    requires Tidy(s)
    ensures Tidy(Trim(s))
  {
    TrimIsSlice(s);
    TidySlice(s, |TrimEnd(s)| - |Trim(s)|, |TrimEnd(s)|);
  }

  /** The text is trimmed: no white space at either end. */
  predicate Trimmed(s: string) {
    s == [] || (!IsSpace(s[0]) && !IsSpace(s[|s| - 1]))
  }

  /** The clean text has no tag left, no line break, no white space but
      single plain spaces, and none at either end. The `\n` put in for each
      `</p>` is itself collapsed to a space, so the paragraph breaks do not
      survive and `/\n\s+/` never applies. */
  lemma CleanIsTidy(contenu: string)
    ensures var r := Clean(contenu); Tidy(r) && Trimmed(r) && '\n' !in r
  {
    var noBr := ReplaceBr(contenu);
    var noP := ReplaceLiteral(noBr, "<p>", "", true);
    var breaks := ReplaceLiteral(noP, "</p>", "\n", true);
    var noTags := StripTags(breaks);
    var noNbsp := ReplaceLiteral(noTags, "&nbsp;", " ", false);
    ReplaceLiteralNoTag(noTags, "&nbsp;", " ", false);
    var collapsed := CollapseSpaces(noNbsp);
    CollapseNoTag(noNbsp);
    CleanNewlinesNoOp(collapsed);
    TrimTidy(collapsed);
    var r := Trim(collapsed);
  }

  // ---------------------------------------------------------------------------
  // What the clean-up keeps

  /** Where `/<br\s*\/?>/` cannot start, the text is kept as it is. */
  lemma {:induction false} ReplaceBrKeepsText(s: string)
    requires '<' !in s
    ensures ReplaceBr(s) == s
    decreases |s|
  {
    if s != [] {
      assert s[1..] == s[1..] && forall c :: c in s[1..] ==> c in s;
      ReplaceBrKeepsText(s[1..]);
    }
  }

  /** A text in which the pattern matches nowhere is unchanged by the
      replace. */
  lemma {:induction false} ReplaceLiteralNoMatch(s: string, pat: string, rep: string, ignoreCase: bool)
    requires pat != []
    requires forall i :: 0 <= i < |s| ==> !MatchesAt(s[i..], pat, ignoreCase)
    ensures ReplaceLiteral(s, pat, rep, ignoreCase) == s
    decreases |s|
  {
    if s != [] {
      assert s[0..] == s;
      forall i | 0 <= i < |s[1..]|
        ensures !MatchesAt(s[1..][i..], pat, ignoreCase)
      {
        assert s[1..][i..] == s[i + 1..];
      }
      ReplaceLiteralNoMatch(s[1..], pat, rep, ignoreCase);
    }
  }

  /** A pattern whose first character is not a letter matches nowhere in a
      text that lacks that character, with or without the `i` flag. */
  lemma NoMatchWithoutFirst(s: string, pat: string, ignoreCase: bool)
    requires pat != [] && pat[0] !in s && !('A' <= pat[0] <= 'Z') && !('a' <= pat[0] <= 'z')
    ensures forall i :: 0 <= i < |s| ==> !MatchesAt(s[i..], pat, ignoreCase)
  {
  }

  /** `/<[^>]*>/` keeps text in which no tag can open, and goes on with the
      rest. */
  lemma {:induction false} StripTagsKeepsText(a: string, b: string)
    requires '<' !in a
    ensures StripTags(a + b) == a + StripTags(b)
    decreases |a|
  {
    if a == [] {
      assert a + b == b;
    } else {
      var s := a + b;
      assert a[0] in a && forall c :: c in a[1..] ==> c in a;
      assert s[0] == a[0] && s[1..] == a[1..] + b;
      assert StripTags(s) == [s[0]] + StripTags(s[1..]);
      StripTagsKeepsText(a[1..], b);
    }
  }

  /** A tag, from `<` to the first `>`, is removed and nothing else. */
  lemma StripTagsDropsTag(t: string, b: string)
    requires '>' !in t
    ensures StripTags("<" + t + ">" + b) == StripTags(b)
  {
    var s := "<" + t + ">" + b;
    FirstTagEnd(t, b);
    assert s[|t| + 2..] == b;
  }

  lemma {:induction false} FirstTagEnd(t: string, b: string)
    requires '>' !in t
    ensures FirstIndexFrom("<" + t + ">" + b, '>', 1) == Some(|t| + 1)
  {
    var s := "<" + t + ">" + b;
    assert forall k :: 1 <= k < |t| + 1 ==> s[k] == t[k - 1];
    assert s[|t| + 1] == '>';
  }

  /** Text that is already single-spaced is unchanged by `/\s+/g`. */
  lemma {:induction false} CollapseKeepsTidy(s: string)
    requires PlainSpaces(s) && NoDoubleSpace(s)
    ensures CollapseSpaces(s) == s
    decreases |s|
  {
    if s != [] {
      var t := s[1..];
      assert PlainSpaces(t) && NoDoubleSpace(t) by {
        assert forall i :: 0 <= i < |t| ==> t[i] == s[i + 1];
      }
      CollapseKeepsTidy(t);
      if IsSpace(s[0]) {
        assert t == [] || !IsSpace(t[0]) by {
          if t != [] {
            assert t[0] == s[1];
          }
        }
        SpaceRunOf([s[0]], t);
        assert [s[0]] + t == s;
      }
    }
  }

  /** Words, the text between white space, are kept in order. */
  lemma {:induction false} CollapseKeepsWords(a: string, b: string)
    requires forall k :: 0 <= k < |a| ==> !IsSpace(a[k])
    ensures CollapseSpaces(a + b) == a + CollapseSpaces(b)
    decreases |a|
  {
    if a == [] {
      assert a + b == b;
    } else {
      assert (a + b)[0] == a[0] && (a + b)[1..] == a[1..] + b;
      CollapseKeepsWords(a[1..], b);
    }
  }

  /** A run of white space becomes one plain space. */
  lemma CollapseSpaceRun(ws: string, b: string)
    requires ws != [] && AllSpace(ws) && (b == [] || !IsSpace(b[0]))
    ensures CollapseSpaces(ws + b) == " " + CollapseSpaces(b)
  {
    SpaceRunOf(ws, b);
    assert (ws + b)[|ws|..] == b;
  }

  lemma {:induction false} SpaceRunOf(ws: string, b: string)
    requires AllSpace(ws) && (b == [] || !IsSpace(b[0]))
    ensures SpaceRun(ws + b) == |ws|
    decreases |ws|
  {
    if ws == [] {
      assert ws + b == b;
    } else {
      assert (ws + b)[0] == ws[0] && (ws + b)[1..] == ws[1..] + b;
      SpaceRunOf(ws[1..], b);
    }
  }

  /** The clean-up gives back unchanged a text that is already clean: single
      plain spaces, trimmed, and free of `<` and `&`. */
  lemma CleanKeepsClean(s: string)
    requires PlainSpaces(s) && NoDoubleSpace(s) && Trimmed(s) && '<' !in s && '&' !in s
    ensures Clean(s) == s
  {
    ReplaceBrKeepsText(s);
    NoMatchWithoutFirst(s, "<p>", true);
    ReplaceLiteralNoMatch(s, "<p>", "", true);
    NoMatchWithoutFirst(s, "</p>", true);
    ReplaceLiteralNoMatch(s, "</p>", "\n", true);
    StripTagsKeepsText(s, "");
    assert s + "" == s;
    NoMatchWithoutFirst(s, "&nbsp;", false);
    ReplaceLiteralNoMatch(s, "&nbsp;", " ", false);
    CollapseKeepsTidy(s);
    assert '\n' !in s by {
      if '\n' in s {
        var i :| 0 <= i < |s| && s[i] == '\n';
        assert IsSpace(s[i]);
      }
    }
    CleanNewlinesNoOp(s);
    TrimNoOp(s);
  }

  // ---------------------------------------------------------------------------
  // The closing acclamation

  /** `/–\s*<phrase>\.?\s*$/i` matches `"–" + t` at the end of the text:
      white space, the phrase in any case, an optional full stop, white
      space to the end. */
  predicate EndingMatches(t: string, phrase: string) {
    var u := t[SpaceRun(t)..];
    |phrase| <= |u| && SameIgnoringCase(u[..|phrase|], phrase) &&
    var rest := u[|phrase|..];
    var tail := if rest != [] && rest[0] == '.' then rest[1..] else rest;
    SpaceRun(tail) == |tail|
  }

  /** The ending regular expression matches from the dash at `k`. */
  predicate EndsAt(s: string, phrase: string, k: nat)
    requires k < |s|
  {
    s[k] == '–' && EndingMatches(s[k + 1..], phrase)
  }

  /** The least position in `i..n` where `p` holds: where a regular
      expression first matches. */
  function Leftmost(n: nat, p: nat -> bool, i: nat): (r: Option<nat>)
    requires i <= n
    ensures r.Some? ==> i <= r.value < n && p(r.value) && forall k :: i <= k < r.value ==> !p(k)
    ensures r.None? ==> forall k :: i <= k < n ==> !p(k)
    decreases n - i
  {
    if i == n then None
    else if p(i) then Some(i)
    else Leftmost(n, p, i + 1)
  }

  /** The positions where the ending matches. */
  function EndingTest(s: string, phrase: string): nat -> bool {
    (k: nat) => k < |s| && EndsAt(s, phrase, k)
  }

  /** The leftmost position where the ending matches. */
  function FindEnding(s: string, phrase: string): Option<nat> {
    Leftmost(|s|, EndingTest(s, phrase), 0)
  }

  /** `.replace(/–\s*<phrase>\.?\s*$/i, '')`. */
  function RemoveEnding(s: string, phrase: string): (r: string)
    ensures r <= s
  {
    match FindEnding(s, phrase)
    case None => s
    case Some(k) => s[..k]
  }

  /** `textWithoutEnding`. */
  function WithoutEnding(clean: string): string {
    Trim(RemoveEnding(RemoveEnding(clean, Acclamation), ParoleDuSeigneur))
  }

  /** A text that ends on a dash, the phrase and a full stop loses exactly
      that ending, whenever the dash is the text's only one. */
  lemma EndingRemoved(body: string, phrase: string)
    requires phrase != [] && !IsSpace(phrase[0]) && '–' !in body
    ensures RemoveEnding(body + "– " + phrase + ".", phrase) == body
  {
    var s := body + "– " + phrase + ".";
    var t := s[|body| + 1..];
    assert t == " " + phrase + ".";
    assert SpaceRun(t) == 1 by {
      assert SpaceRun(t[1..]) == 0;
    }
    assert t[1..] == phrase + ".";
    assert (phrase + ".")[..|phrase|] == phrase;
    assert (phrase + ".")[|phrase|..] == ".";
    assert SpaceRun("") == 0;
    SameIgnoringCaseRefl(phrase);
    assert EndingMatches(t, phrase);
    assert s[|body|] == '–';
    var test := EndingTest(s, phrase);
    assert test(|body|);
    forall k: nat | k < |body|
      ensures !test(k)
    {
      assert s[k] == body[k];
    }
    assert FindEnding(s, phrase) == Some(|body|);
    assert s[..|body|] == body;
  }

  /** The text without its ending is what the clean text was, cut before
      the acclamation, and is as tidy. */
  lemma WithoutEndingTidy(clean: string)
    requires Tidy(clean)
    ensures var r := WithoutEnding(clean); Tidy(r) && Trimmed(r) && |r| <= |clean|
  {
    var a := RemoveEnding(clean, Acclamation);
    TidySlice(clean, 0, |a|);
    assert clean[0..|a|] == a;
    var b := RemoveEnding(a, ParoleDuSeigneur);
    TidySlice(a, 0, |b|);
    assert a[0..|b|] == b;
    TrimTidy(b);
  }

  // ---------------------------------------------------------------------------
  // The short verse

  /** `/«\s*([^»]+)\s*»/` can match from position `o`: a « whose first »
      after it is not right behind it. */
  predicate OpensQuote(s: string, o: nat) {
    o + 1 < |s| && s[o] == '«' && s[o + 1] != '»' && '»' in s[o + 1..]
  }

  /** The leftmost match: the position of « and of the » that closes it. */
  function QuoteFrom(s: string, i: nat): (r: Option<(nat, nat)>)
    requires i <= |s|
    ensures r.Some? ==> (i <= r.value.0 && OpensQuote(s, r.value.0) &&
      r.value.0 + 1 < r.value.1 < |s| && s[r.value.1] == '»' &&
      (forall k :: r.value.0 < k < r.value.1 ==> s[k] != '»') &&
      forall k :: i <= k < r.value.0 ==> !OpensQuote(s, k))
    ensures r.None? ==> forall k :: i <= k < |s| ==> !OpensQuote(s, k)
    decreases |s| - i
  {
    if i == |s| then None
    else if s[i] == '«' && FirstIndexFrom(s, '»', i + 1).Some? && FirstIndexFrom(s, '»', i + 1).value > i + 1 then
      var e := FirstIndexFrom(s, '»', i + 1).value;
      assert s[i + 1..][e - i - 1] == '»';
      Some((i, e))
    else
      QuoteFrom(s, i + 1)
  }

  /** The capture group: the text between « and », without the white space
      that the greedy `\s*` takes in front, which always leaves `[^»]+` one
      character. */
  function Captured(inner: string): string
    requires inner != []
  {
    var k := if SpaceRun(inner) < |inner| then SpaceRun(inner) else |inner| - 1;
    inner[k..]
  }

  predicate IsStop(c: char) {
    c == '.' || c == '!' || c == '?'
  }

  function StopRun(s: string): (n: nat)
    ensures 0 < n <= |s| || (n == 0 && (s == [] || !IsStop(s[0])))
    ensures forall k :: 0 <= k < n ==> IsStop(s[k])
    ensures n < |s| ==> !IsStop(s[n])
    decreases |s|
  {
    if s != [] && IsStop(s[0]) then 1 + StopRun(s[1..]) else 0
  }

  /** `s.split(/[.!?]+/)`: the pieces between runs of sentence stops. */
  function SplitSentences(s: string): (parts: seq<string>)
    ensures |parts| >= 1
    ensures forall k, i :: 0 <= k < |parts| && 0 <= i < |parts[k]| ==> !IsStop(parts[k][i])
    decreases |s|
  {
    if s == [] then [""]
    else if IsStop(s[0]) then [""] + SplitSentences(s[StopRun(s)..])
    else
      var rest := SplitSentences(s[1..]);
      assert forall i :: 0 < i < |rest[0]| + 1 ==> ([s[0]] + rest[0])[i] == rest[0][i - 1];
      [[s[0]] + rest[0]] + rest[1..]
  }

  /** A text without stops is a single piece. */
  lemma {:induction false} SplitStopFree(a: string)
    requires forall k :: 0 <= k < |a| ==> !IsStop(a[k])
    ensures SplitSentences(a) == [a]
    decreases |a|
  {
    if a != [] {
      assert forall k :: 0 <= k < |a| - 1 ==> a[1..][k] == a[k + 1];
      SplitStopFree(a[1..]);
      assert [a[0]] + a[1..] == a;
    }
  }

  lemma {:induction false} StopRunOf(run: string, b: string)
    requires forall k :: 0 <= k < |run| ==> IsStop(run[k])
    requires b == [] || !IsStop(b[0])
    ensures StopRun(run + b) == |run|
    decreases |run|
  {
    if run == [] {
      assert run + b == b;
    } else {
      assert (run + b)[0] == run[0] && (run + b)[1..] == run[1..] + b;
      StopRunOf(run[1..], b);
    }
  }

  /** The pieces end where a run of stops begins and start where it ends:
      a stop-free text followed by a whole run of stops is the first piece,
      and the split goes on with what follows the run. */
  lemma {:induction false} SplitAtStops(a: string, run: string, b: string)
    requires forall k :: 0 <= k < |a| ==> !IsStop(a[k])
    requires run != [] && forall k :: 0 <= k < |run| ==> IsStop(run[k])
    requires b == [] || !IsStop(b[0])
    ensures SplitSentences(a + run + b) == [a] + SplitSentences(b)
    decreases |a|
  {
    if a == [] {
      assert a + run + b == run + b;
      StopRunOf(run, b);
      assert (run + b)[|run|..] == b;
    } else {
      var s := a + run + b;
      assert s[0] == a[0] && s[1..] == a[1..] + run + b;
      SplitAtStops(a[1..], run, b);
      assert [a[0]] + a[1..] == a;
    }
  }

  /** `s` without its sentence stops. */
  function WithoutStops(s: string): string
    decreases |s|
  {
    if s == [] then ""
    else if IsStop(s[0]) then WithoutStops(s[1..])
    else [s[0]] + WithoutStops(s[1..])
  }

  function Concat(parts: seq<string>): string
    decreases |parts|
  {
    if parts == [] then "" else parts[0] + Concat(parts[1..])
  }

  lemma {:induction false} WithoutStopsRun(s: string, n: nat)
    requires n <= |s| && forall k :: 0 <= k < n ==> IsStop(s[k])
    ensures WithoutStops(s) == WithoutStops(s[n..])
    decreases n
  {
    if n > 0 {
      WithoutStopsRun(s[1..], n - 1);
      assert s[1..][n - 1..] == s[n..];
    }
  }

  /** The split loses nothing but the stops: its pieces, put together,
      are the text without its stops. */
  lemma {:induction false} SplitKeepsText(s: string)
    ensures Concat(SplitSentences(s)) == WithoutStops(s)
    decreases |s|
  {
    if s == [] {
    } else if IsStop(s[0]) {
      var n := StopRun(s);
      SplitKeepsText(s[n..]);
      WithoutStopsRun(s, n);
      var parts := SplitSentences(s);
      assert parts == [""] + SplitSentences(s[n..]);
      assert parts[1..] == SplitSentences(s[n..]);
    } else {
      SplitKeepsText(s[1..]);
      var rest := SplitSentences(s[1..]);
      var parts := [[s[0]] + rest[0]] + rest[1..];
      assert parts[1..] == rest[1..];
      assert Concat(rest) == rest[0] + Concat(rest[1..]);
    }
  }

  predicate Long(p: string) {
    |Trim(p)| > 10
  }

  /** `.filter(s => s.trim().length > 10)`. */
  function LongSentences(parts: seq<string>): (r: seq<string>)
    ensures forall k :: 0 <= k < |r| ==> Long(r[k]) && r[k] in parts
    ensures forall k :: 0 <= k < |parts| && Long(parts[k]) ==> parts[k] in r
    ensures r == [] <==> forall k :: 0 <= k < |parts| ==> !Long(parts[k])
    ensures r != [] ==> exists i :: 0 <= i < |parts| && r[0] == parts[i] && forall j :: 0 <= j < i ==> !Long(parts[j])
    decreases |parts|
  {
    if parts == [] then []
    else if Long(parts[0]) then [parts[0]] + LongSentences(parts[1..])
    else
      var rest := LongSentences(parts[1..]);
      assert forall k :: 1 <= k < |parts| ==> parts[k] == parts[1..][k - 1];
      rest
  }

  /** The filter keeps the order: filtering a concatenation concatenates
      the filtered halves. */
  lemma {:induction false} LongSentencesAppend(a: seq<string>, b: seq<string>)
    ensures LongSentences(a + b) == LongSentences(a) + LongSentences(b)
    decreases |a|
  {
    if a == [] {
      assert a + b == b;
    } else {
      assert (a + b)[0] == a[0] && (a + b)[1..] == a[1..] + b;
      LongSentencesAppend(a[1..], b);
    }
  }

  /** The verse of the fallback: the first two long sentences joined by
      ". ", trimmed, with a full stop added when it does not end on one. */
  function SentencesVerse(text: string): string {
    JoinedVerse(LongSentences(SplitSentences(text)))
  }

  /** `.slice(0, 2).join('. ').trim()`, with the full stop added. */
  function JoinedVerse(long: seq<string>): string {
    var picked := if |long| <= 2 then long else long[..2];
    var v := Trim(Join(picked, ". "));
    if v != "" && !EndsWith(v, ".") then v + "." else v
  }

  /** `shortVerse` before truncation. */
  function ShortVerse(text: string): string {
    match QuoteFrom(text, 0)
    case Some((o, e)) => "« " + Trim(Captured(text[o + 1..e])) + " »"
    case None => SentencesVerse(text)
  }

  /** `shortVerse.length > 250 ? shortVerse.substring(0, 250) + '...' : shortVerse`. */
  function Truncated(v: string): string {
    if |v| > 250 then v[..250] + "..." else v
  }

  /** At most 253 characters; a verse of up to 250 is kept as it is, a longer
      one keeps its first 250 characters followed by "...". */
  lemma TruncatedBounds(v: string)
    ensures |Truncated(v)| <= 253
    ensures |v| <= 250 ==> Truncated(v) == v
    ensures |v| > 250 ==> |Truncated(v)| == 253 && Truncated(v)[..250] == v[..250] && EndsWith(Truncated(v), "...")
  {
  }

  lemma {:induction false} TrimStartSkipsSpace(ws: string, x: string)
    requires AllSpace(ws)
    ensures TrimStart(ws + x) == TrimStart(x)
    decreases |ws|
  {
    if ws != [] {
      assert (ws + x)[0] == ws[0] && (ws + x)[1..] == ws[1..] + x;
      TrimStartSkipsSpace(ws[1..], x);
    } else {
      assert ws + x == x;
    }
  }

  lemma {:induction false} TrimEndKeepsFront(ws: string, x: string)
    requires exists i :: 0 <= i < |x| && !IsSpace(x[i])
    ensures TrimEnd(ws + x) == ws + TrimEnd(x)
    decreases |x|
  {
    if IsSpace(x[|x| - 1]) {
      var x' := x[..|x| - 1];
      var i :| 0 <= i < |x| && !IsSpace(x[i]);
      assert x'[i] == x[i];
      assert (ws + x)[..|ws + x| - 1] == ws + x';
      TrimEndKeepsFront(ws, x');
    }
  }

  lemma {:induction false} TrimEndAllSpace(s: string)
    requires AllSpace(s)
    ensures TrimEnd(s) == ""
    decreases |s|
  {
    if s != [] {
      TrimEndAllSpace(s[..|s| - 1]);
    }
  }

  /** White space in front changes nothing once the text is trimmed. */
  lemma TrimSkipsSpace(ws: string, x: string)
    requires AllSpace(ws)
    ensures Trim(ws + x) == Trim(x)
  {
    if exists i :: 0 <= i < |x| && !IsSpace(x[i]) {
      TrimEndKeepsFront(ws, x);
      TrimStartSkipsSpace(ws, TrimEnd(x));
    } else {
      TrimEndAllSpace(x);
      assert forall i :: 0 <= i < |ws + x| ==> IsSpace((ws + x)[i]) by {
        forall i | 0 <= i < |ws + x|
          ensures IsSpace((ws + x)[i])
        {
          if i >= |ws| {
            assert (ws + x)[i] == x[i - |ws|];
          }
        }
      }
      TrimEndAllSpace(ws + x);
    }
  }

  /** The white space the capture group leaves out changes nothing once
      trimmed. */
  lemma CapturedTrim(inner: string)
    requires inner != []
    ensures Trim(Captured(inner)) == Trim(inner)
  {
    var k := if SpaceRun(inner) < |inner| then SpaceRun(inner) else |inner| - 1;
    assert inner == inner[..k] + inner[k..];
    TrimSkipsSpace(inner[..k], inner[k..]);
  }

  /** With a «…» pair, the verse is "« ", the trimmed text between the
      leftmost such « and the first » after it, and " »"; that text holds
      no ». */
  lemma QuotedVerse(text: string, o: nat, e: nat)
    requires QuoteFrom(text, 0) == Some((o, e))
    ensures ShortVerse(text) == "« " + Trim(text[o + 1..e]) + " »"
    ensures '»' !in text[o + 1..e]
    ensures forall k :: 0 <= k < o ==> !OpensQuote(text, k)
  {
    assert ShortVerse(text) == "« " + Trim(Captured(text[o + 1..e])) + " »";
    CapturedTrim(text[o + 1..e]);
    var inner := text[o + 1..e];
    forall j | 0 <= j < |inner|
      ensures inner[j] != '»'
    {
      assert inner[j] == text[o + 1 + j];
    }
  }

  /** A text that begins with a text having something besides white space
      has something besides white space too. */
  lemma TrimNonEmptyOfPrefix(p: string, j: string)
    requires p <= j && Trim(p) != ""
    ensures Trim(j) != ""
  {
    TrimEmptyIff(p);
    TrimEmptyIff(j);
  }

  lemma JoinStartsWithFirst(parts: seq<string>, sep: string)
    requires parts != []
    ensures parts[0] <= Join(parts, sep)
  {
    if |parts| > 1 {
      assert Join(parts, sep) == parts[0] + (sep + Join(parts[1..], sep));
    }
  }

  /** Joining long sentences gives a verse that is empty exactly when there
      is no sentence, and otherwise ends with a full stop. */
  lemma JoinedVerseShape(long: seq<string>)
    requires forall k :: 0 <= k < |long| ==> Long(long[k])
    ensures JoinedVerse(long) == "" <==> long == []
    ensures JoinedVerse(long) != "" ==> EndsWith(JoinedVerse(long), ".")
  {
    var picked := if |long| <= 2 then long else long[..2];
    var t := Trim(Join(picked, ". "));
    if long != [] {
      assert picked[0] == long[0] && Long(long[0]);
      JoinStartsWithFirst(picked, ". ");
      TrimNonEmptyOfPrefix(picked[0], Join(picked, ". "));
      assert (t + ".")[|t + "."| - 1..] == ".";
    }
  }

  /** Without a «…» pair, the verse is empty exactly when no sentence is
      longer than 10 characters once trimmed, and otherwise ends with a full
      stop. */
  lemma SentencesVerseShape(text: string)
    ensures SentencesVerse(text) == "" ==> forall k :: 0 <= k < |SplitSentences(text)| ==> !Long(SplitSentences(text)[k])
    ensures (forall k :: 0 <= k < |SplitSentences(text)| ==> !Long(SplitSentences(text)[k])) ==> SentencesVerse(text) == ""
    ensures SentencesVerse(text) != "" ==> EndsWith(SentencesVerse(text), ".")
  {
    var parts := SplitSentences(text);
    var long := LongSentences(parts);
    JoinedVerseShape(long);
    assert SentencesVerse(text) == JoinedVerse(long);
    if long != [] {
      var k :| 0 <= k < |parts| && parts[k] == long[0];
      assert Long(parts[k]);
    }
  }

  lemma {:induction false} TrimEndSpaceTail(t: string, z: string)
    requires t != [] && !IsSpace(t[|t| - 1]) && AllSpace(z)
    ensures TrimEnd(t + z) == t
    decreases |z|
  {
    if z == [] {
      assert t + z == t;
    } else {
      assert (t + z)[..|t + z| - 1] == t + z[..|z| - 1];
      TrimEndSpaceTail(t, z[..|z| - 1]);
    }
  }

  /** Text after a non-blank piece does not change how the piece begins
      once trimmed. */
  lemma TrimOfPrefix(p: string, x: string)
    requires Trim(p) != ""
    ensures Trim(p) <= Trim(p + x)
  {
    var e := TrimEnd(p);
    var t := Trim(p);
    TrimEndDrops(p);
    TrimStartDrops(e);
    var ws1 := e[..|e| - |t|];
    var z := p[|e|..] + x;
    assert p + x == ws1 + (t + z);
    TrimSkipsSpace(ws1, t + z);
    if exists i :: 0 <= i < |z| && !IsSpace(z[i]) {
      TrimEndKeepsFront(t, z);
      assert (t + TrimEnd(z))[0] == t[0];
    } else {
      TrimEndSpaceTail(t, z);
    }
  }

  /** The fallback verse begins with the first piece of the split whose
      trimmed length is over 10, trimmed. */
  lemma SentencesVerseStartsWithFirstLong(text: string, i: nat)
    requires i < |SplitSentences(text)| && Long(SplitSentences(text)[i])
    requires forall j :: 0 <= j < i ==> !Long(SplitSentences(text)[j])
    ensures Trim(SplitSentences(text)[i]) <= SentencesVerse(text)
  {
    var parts := SplitSentences(text);
    var long := LongSentences(parts);
    assert parts[i] in long;
    var i' :| 0 <= i' < |parts| && long[0] == parts[i'] && forall j :: 0 <= j < i' ==> !Long(parts[j]);
    assert i' == i by {
      assert Long(long[0]);
    }
    JoinedVerseStartsWithFirst(long);
  }

  /** The joined verse begins with its first piece, trimmed. */
  lemma JoinedVerseStartsWithFirst(long: seq<string>)
    requires long != [] && Long(long[0])
    ensures Trim(long[0]) <= JoinedVerse(long)
  {
    var p := long[0];
    var picked := if |long| <= 2 then long else long[..2];
    var joined := Join(picked, ". ");
    assert picked[0] == p;
    JoinStartsWithFirst(picked, ". ");
    assert joined == p + joined[|p|..];
    TrimOfPrefix(p, joined[|p|..]);
  }

  // ---------------------------------------------------------------------------
  // The route

  /** `value || fallback` for an optional string. */
  function OrElse(value: Option<string>, fallback: string): string {
    if value.Some? && value.value != "" then value.value else fallback
  }

  /** `data.informations?.fete || data.informations?.jour_liturgique_nom || ''`. */
  function LiturgicalInfo(info: Option<Informations>): string {
    match info
    case None => ""
    case Some(i) => OrElse(i.fete, OrElse(i.jourLiturgiqueNom, ""))
  }

  /** The answer built from the chosen reading. */
  function ReadingOf(date: string, l: Lecture, info: Option<Informations>): Reading {
    var text := WithoutEnding(Clean(l.contenu));
    Reading(date, if l.titre != "" then l.titre else DefaultTitle, OrElse(l.introLue, DefaultIntro), l.ref,
            LiturgicalInfo(info), Truncated(ShortVerse(text)), text)
  }

  /** `GET()`, given the date of the day and what the AELF request gave. */
  function Respond(date: string, fetched: Option<AelfResponse>): Reply {
    match fetched
    case None => ServerError(Unreachable)
    case Some(data) =>
      if data.messes.None? || data.messes.value == [] || data.messes.value[0].lectures.None? then
        NotFound(MesseNotFound)
      else
        var lectures := data.messes.value[0].lectures.value;
        match FindEvangile(lectures, 0)
        case None => NotFound(EvangileNotFound)
        case Some(k) => Found(ReadingOf(date, lectures[k], data.informations))
  }

  /** The mass of the day: the first one, when there is one with lectures. */
  predicate HasMesse(data: AelfResponse) {
    data.messes.Some? && data.messes.value != [] && data.messes.value[0].lectures.Some?
  }

  /** When the answer is 500, 404 or 200: a failed request gives 500; a
      missing first mass or lecture list gives the first 404; a mass with no
      reading of type "evangile" the second (an empty lecture list among
      them); otherwise 200. */
  lemma RespondOutcomes(date: string, fetched: Option<AelfResponse>)
    ensures Status(Respond(date, fetched)) == 500 <==> fetched.None?
    ensures Respond(date, fetched) == NotFound(MesseNotFound) <==> fetched.Some? && !HasMesse(fetched.value)
    ensures Respond(date, fetched) == NotFound(EvangileNotFound) <==>
      fetched.Some? && HasMesse(fetched.value) &&
      forall l :: l in fetched.value.messes.value[0].lectures.value ==> l.kind != "evangile"
    ensures Status(Respond(date, fetched)) == 200 <==>
      fetched.Some? && HasMesse(fetched.value) &&
      exists l :: l in fetched.value.messes.value[0].lectures.value && l.kind == "evangile"
  {
    if fetched.Some? && HasMesse(fetched.value) {
      var lectures := fetched.value.messes.value[0].lectures.value;
      match FindEvangile(lectures, 0)
      case None =>
        assert forall l :: l in lectures ==> l.kind != "evangile" by {
          forall l | l in lectures
            ensures l.kind != "evangile"
          {
            var k :| 0 <= k < |lectures| && lectures[k] == l;
          }
        }
      case Some(k) =>
        assert lectures[k] in lectures;
    }
  }

  /** The answer built from a reading: its title and intro are never empty,
      its verse has at most 253 characters, and its full text has no tag, no
      line break, single plain spaces and no white space at either end. */
  lemma ReadingOfShape(date: string, l: Lecture, info: Option<Informations>)
    ensures var r := ReadingOf(date, l, info);
      r.date == date && r.reference == l.ref && r.title != "" && r.intro != "" &&
      |r.shortVerse| <= 253 && Tidy(r.fullText) && Trimmed(r.fullText) && '\n' !in r.fullText &&
      r.liturgicalInfo == LiturgicalInfo(info)
  {
    CleanIsTidy(l.contenu);
    WithoutEndingTidy(Clean(l.contenu));
    TruncatedBounds(ShortVerse(WithoutEnding(Clean(l.contenu))));
  }

  /** A 200 answer is built from the first reading of type "evangile" of
      the first mass, with its title and intro or their defaults. */
  lemma FoundReading(date: string, fetched: Option<AelfResponse>)
    requires Respond(date, fetched).Found?
    ensures var data := fetched.value;
      var lectures := data.messes.value[0].lectures.value;
      var r := Respond(date, fetched).reading;
      HasMesse(data) &&
      exists k :: 0 <= k < |lectures| && lectures[k].kind == "evangile" &&
        (forall j :: 0 <= j < k ==> lectures[j].kind != "evangile") &&
        r == ReadingOf(date, lectures[k], data.informations) &&
        r.title == (if lectures[k].titre != "" then lectures[k].titre else DefaultTitle) &&
        r.intro == OrElse(lectures[k].introLue, DefaultIntro)
  {
    var data := fetched.value;
    var lectures := data.messes.value[0].lectures.value;
    var k := FindEvangile(lectures, 0).value;
    assert Respond(date, fetched).reading == ReadingOf(date, lectures[k], data.informations);
  }
}
