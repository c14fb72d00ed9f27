/**
 Glossary links in a documentation page (docs/ext/glossary.py). A page is a tree of elements with a text before the
 children and a tail after each element; the first occurrence of each term is wrapped in a link element.
 */
module Glossary {
  import opened Wrappers

  // ---------------------------------------------------------------- terms and matches

  datatype Term = Term(slug: string, tooltip: string)

  datatype Match = Match(start: nat, end: nat)

  /** The glossary, the search of a term from a position on, and whether a text is white space only. */
  datatype Rules = Rules(glossary: seq<Term>, search: (Term, string, nat) -> Option<Match>, blank: string -> bool)
  {
    /** Matches are not empty and lie in the part searched. */
    ghost predicate Valid() {
      forall t: Term, text: string, cursor: nat ::
        var m := search(t, text, cursor); m.Some? ==> cursor <= m.value.start < m.value.end <= |text|
    }
  }

  datatype Candidate = Candidate(term: Term, start: nat, end: nat)

  predicate Better(a: Candidate, b: Candidate) {
    a.start < b.start || (a.start == b.start && a.end - a.start > b.end - b.start)
  }

  /** The match of one term, unless it was linked before. */
  function Found(rules: Rules, term: Term, seen: set<string>, text: string, cursor: nat): Option<Candidate> {
    if term.slug in seen then None
    else
      var m := rules.search(term, text, cursor);
      if m.None? then None else Some(Candidate(term, m.value.start, m.value.end))
  }

  /** The best match among the first `n` terms: an earlier term gives way only to a better one. */
  function Best(rules: Rules, n: nat, seen: set<string>, text: string, cursor: nat): Option<Candidate>
    requires n <= |rules.glossary|
  {
    if n == 0 then None
    else
      var before := Best(rules, n - 1, seen, text, cursor);
      var now := Found(rules, rules.glossary[n - 1], seen, text, cursor);
      if now.None? then before
      else if before.None? || Better(now.value, before.value) then now
      else before
  }

  function BestOfAll(rules: Rules, seen: set<string>, text: string, cursor: nat): Option<Candidate> {
    Best(rules, |rules.glossary|, seen, text, cursor)
  }

  /** No unseen term matches earlier than the chosen one, nor longer at the same place; None only if none matches. */
  lemma {:induction false} BestIsLeftmostLongest(rules: Rules, n: nat, seen: set<string>, text: string, cursor: nat)
    requires n <= |rules.glossary|
    ensures var best := Best(rules, n, seen, text, cursor);
            forall i :: 0 <= i < n ==>
              var other := Found(rules, rules.glossary[i], seen, text, cursor);
              other.Some? ==> best.Some? && !Better(other.value, best.value)
  {
    if n > 0 {
      BestIsLeftmostLongest(rules, n - 1, seen, text, cursor);
    }
  }

  lemma {:induction false} BestIsFound(rules: Rules, n: nat, seen: set<string>, text: string, cursor: nat)
    requires n <= |rules.glossary| && rules.Valid()
    ensures var best := Best(rules, n, seen, text, cursor);
            best.Some? ==> cursor <= best.value.start < best.value.end <= |text| && best.value.term.slug !in seen
  {
    if n > 0 {
      BestIsFound(rules, n - 1, seen, text, cursor);
    }
  }

  // ---------------------------------------------------------------- pieces

  datatype Piece = Words(text: string) | Link(term: Term, shown: string)

  function PiecesFrom(rules: Rules, seen: set<string>, text: string, cursor: nat): (seq<Piece>, set<string>)
    requires rules.Valid() && cursor <= |text|
    decreases |text| - cursor
  {
    BestIsFound(rules, |rules.glossary|, seen, text, cursor);
    var best := BestOfAll(rules, seen, text, cursor);
    if best.None? then (if cursor < |text| then [Words(text[cursor..])] else [], seen)
    else
      var Candidate(term, start, end) := best.value;
      var (rest, after) := PiecesFrom(rules, seen + {term.slug}, text, end);
      ((if start > cursor then [Words(text[cursor..start])] else []) + [Link(term, text[start..end])] + rest, after)
  }

  /** Empty when nothing is to be linked. */
  function Pieces(rules: Rules, seen: set<string>, text: string): (seq<Piece>, set<string>)
    requires rules.Valid()
  {
    if rules.blank(text) || BestOfAll(rules, seen, text, 0).None? then ([], seen)
    else PiecesFrom(rules, seen, text, 0)
  }

  lemma PiecesOf(rules: Rules, seen: set<string>, text: string)
    requires rules.Valid()
    ensures Pieces(rules, seen, text)
         == if rules.blank(text) || BestOfAll(rules, seen, text, 0).None? then ([], seen) else PiecesFrom(rules, seen, text, 0)
  {
    hide PiecesFrom, BestOfAll, Rules.Valid;
  }

  function PieceText(p: Piece): string {
    match p
    case Words(t) => t
    case Link(_, shown) => shown
  }

  function PieceTerms(p: Piece): multiset<string> {
    match p
    case Words(_) => multiset{}
    case Link(t, _) => multiset{t.slug}
  }

  function PiecesText(pieces: seq<Piece>): string {
    if |pieces| == 0 then "" else PiecesText(pieces[..|pieces| - 1]) + PieceText(pieces[|pieces| - 1])
  }

  function PiecesTerms(pieces: seq<Piece>): multiset<string> {
    if |pieces| == 0 then multiset{} else PiecesTerms(pieces[..|pieces| - 1]) + PieceTerms(pieces[|pieces| - 1])
  }

  lemma PiecesSnoc(a: seq<Piece>, p: Piece)
    ensures PiecesText(a + [p]) == PiecesText(a) + PieceText(p)
    ensures PiecesTerms(a + [p]) == PiecesTerms(a) + PieceTerms(p)
  {
    assert (a + [p])[..|a|] == a;
  }

  lemma {:induction false} PiecesConcat(a: seq<Piece>, b: seq<Piece>)
    ensures PiecesText(a + b) == PiecesText(a) + PiecesText(b)
    ensures PiecesTerms(a + b) == PiecesTerms(a) + PiecesTerms(b)
  {
    hide *;
    NoPieces();
    if |b| == 0 {
      assert b == [] && a + b == a;
    } else {
      var (front, p) := (b[..|b| - 1], b[|b| - 1]);
      assert b == front + [p] && a + b == (a + front) + [p];
      PiecesConcat(a, front);
      PiecesSnoc(front, p);
      PiecesSnoc(a + front, p);
    }
  }

  lemma OnePiece(p: Piece)
    ensures PiecesText([p]) == PieceText(p) && PiecesTerms([p]) == PieceTerms(p)
  {
    assert [p][..0] == [];
  }

  /** The pieces of one link: the words before it, if any, and the link. */
  function Step(text: string, cursor: nat, c: Candidate): seq<Piece>
    requires cursor <= c.start <= c.end <= |text|
  {
    (if c.start > cursor then [Words(text[cursor..c.start])] else []) + [Link(c.term, text[c.start..c.end])]
  }

  lemma StepFacts(text: string, cursor: nat, c: Candidate)
    requires cursor <= c.start <= c.end <= |text|
    ensures PiecesText(Step(text, cursor, c)) == text[cursor..c.end]
    ensures PiecesTerms(Step(text, cursor, c)) == multiset{c.term.slug}
  {
    hide PiecesText, PiecesTerms;
    var link := Link(c.term, text[c.start..c.end]);
    OnePiece(link);
    if c.start > cursor {
      OnePiece(Words(text[cursor..c.start]));
      PiecesConcat([Words(text[cursor..c.start])], [link]);
      assert text[cursor..c.end] == text[cursor..c.start] + text[c.start..c.end];
    } else {
      assert Step(text, cursor, c) == [link];
    }
  }

  lemma PiecesUnfold(rules: Rules, seen: set<string>, text: string, cursor: nat)
    requires rules.Valid() && cursor <= |text|
    ensures var best := BestOfAll(rules, seen, text, cursor);
            && (best.Some? ==> cursor <= best.value.start < best.value.end <= |text| && best.value.term.slug !in seen)
            && PiecesFrom(rules, seen, text, cursor) ==
               if best.None? then (if cursor < |text| then [Words(text[cursor..])] else [], seen)
               else
                 var (rest, after) := PiecesFrom(rules, seen + {best.value.term.slug}, text, best.value.end);
                 (Step(text, cursor, best.value) + rest, after)
  {
    BestIsFound(rules, |rules.glossary|, seen, text, cursor);
  }

  lemma SetsAddUp(seen: set<string>, slug: string, after: set<string>)
    requires slug !in seen && seen + {slug} <= after
    ensures multiset(after - seen) == multiset{slug} + multiset(after - (seen + {slug}))
  {
    assert after - seen == {slug} + (after - (seen + {slug}));
  }

  /** The pieces spell the text, and their links are new terms, each once. */
  lemma {:induction false} PiecesKeepText(rules: Rules, seen: set<string>, text: string, cursor: nat)
    requires rules.Valid() && cursor <= |text|
    ensures var (pieces, after) := PiecesFrom(rules, seen, text, cursor);
            && PiecesText(pieces) == text[cursor..] && seen <= after && PiecesTerms(pieces) == multiset(after - seen)
    decreases |text| - cursor
  {
    hide PiecesFrom, PiecesText, PiecesTerms, BestOfAll, Step, Rules.Valid;
    PiecesUnfold(rules, seen, text, cursor);
    var best := BestOfAll(rules, seen, text, cursor);
    if best.None? {
      NoPieces();
      OnePiece(Words(text[cursor..]));
      assert seen - seen == {};
    } else {
      var c := best.value;
      var (rest, after) := PiecesFrom(rules, seen + {c.term.slug}, text, c.end);
      PiecesKeepText(rules, seen + {c.term.slug}, text, c.end);
      StepFacts(text, cursor, c);
      PiecesConcat(Step(text, cursor, c), rest);
      assert text[cursor..] == text[cursor..c.end] + text[c.end..];
      SetsAddUp(seen, c.term.slug, after);
    }
  }

  lemma NoPieces()
    ensures PiecesText([]) == "" && PiecesTerms([]) == multiset{}
  {
  }

  // ---------------------------------------------------------------- links are matches, and no match is passed over

  lemma {:induction false} BestIsMatch(rules: Rules, n: nat, seen: set<string>, text: string, cursor: nat)
    requires n <= |rules.glossary|
    ensures var best := Best(rules, n, seen, text, cursor);
            best.Some? ==> best.value.term in rules.glossary
                           && rules.search(best.value.term, text, cursor) == Some(Match(best.value.start, best.value.end))
  {
    if n > 0 {
      BestIsMatch(rules, n - 1, seen, text, cursor);
    }
  }

  /** Every link shows exactly a match of its term, at the place where the text before it ends. */
  lemma {:induction false} LinksShowMatches(rules: Rules, seen: set<string>, text: string, cursor: nat, i: nat) returns (at: nat, m: Match)
    requires rules.Valid() && cursor <= |text|
    requires var pieces := PiecesFrom(rules, seen, text, cursor).0; i < |pieces| && pieces[i].Link?
    ensures var pieces := PiecesFrom(rules, seen, text, cursor).0;
            && cursor <= at <= m.start <= m.end <= |text|
            && pieces[i].term in rules.glossary && pieces[i].term.slug !in seen
            && rules.search(pieces[i].term, text, at) == Some(m) && pieces[i].shown == text[m.start..m.end]
            && PiecesText(pieces[..i]) == text[cursor..m.start]
    decreases |text| - cursor
  {
    hide PiecesFrom, PiecesText, PiecesTerms, BestOfAll, Rules.Valid;
    PiecesUnfold(rules, seen, text, cursor);
    BestOfAllIsMatch(rules, seen, text, cursor);
    var pieces := PiecesFrom(rules, seen, text, cursor).0;
    var c := BestOfAll(rules, seen, text, cursor).value;
    var step := Step(text, cursor, c);
    var rest := PiecesFrom(rules, seen + {c.term.slug}, text, c.end).0;
    if i < |step| {
      at, m := cursor, Match(c.start, c.end);
      BeforeLink(text, cursor, c, rest);
    } else {
      at, m := LinksShowMatches(rules, seen + {c.term.slug}, text, c.end, i - |step|);
      StepFacts(text, cursor, c);
      PiecesConcat(step, rest[..i - |step|]);
      assert pieces[..i] == step + rest[..i - |step|];
      assert text[cursor..m.start] == text[cursor..c.end] + text[c.end..m.start];
    }
  }

  lemma BestOfAllIsMatch(rules: Rules, seen: set<string>, text: string, cursor: nat)
    ensures var best := BestOfAll(rules, seen, text, cursor);
            best.Some? ==> best.value.term in rules.glossary
                           && rules.search(best.value.term, text, cursor) == Some(Match(best.value.start, best.value.end))
  {
    BestIsMatch(rules, |rules.glossary|, seen, text, cursor);
  }

  lemma BeforeLink(text: string, cursor: nat, c: Candidate, rest: seq<Piece>)
    requires cursor <= c.start <= c.end <= |text|
    ensures var step := Step(text, cursor, c);
            PiecesText((step + rest)[..|step| - 1]) == text[cursor..c.start]
  {
    var step := Step(text, cursor, c);
    NoPieces();
    if c.start > cursor {
      OnePiece(Words(text[cursor..c.start]));
      assert (step + rest)[..1] == [Words(text[cursor..c.start])];
    } else {
      assert (step + rest)[..0] == [];
    }
  }

  /** A term of the glossary that is still unseen afterwards matches at no place the search came by. */
  lemma UnseenIsNoBetter(rules: Rules, seen: set<string>, text: string, cursor: nat, t: Term)
    requires t in rules.glossary && t.slug !in seen
    ensures var (best, m) := (BestOfAll(rules, seen, text, cursor), rules.search(t, text, cursor));
            m.Some? ==> best.Some? && best.value.start <= m.value.start
  {
    BestIsLeftmostLongest(rules, |rules.glossary|, seen, text, cursor);
    var i :| 0 <= i < |rules.glossary| && rules.glossary[i] == t;
    assert Found(rules, rules.glossary[i], seen, text, cursor).Some? <==> rules.search(t, text, cursor).Some?;
    hide Best;
  }

  /** No term left unseen has a match that starts in words left as they are. */
  lemma {:induction false} WordsHoldNoMatch(rules: Rules, seen: set<string>, text: string, cursor: nat, i: nat, t: Term)
    requires rules.Valid() && cursor <= |text|
    requires var (pieces, after) := PiecesFrom(rules, seen, text, cursor);
             i < |pieces| && pieces[i].Words? && t in rules.glossary && t.slug !in after
    ensures var pieces := PiecesFrom(rules, seen, text, cursor).0;
            var from := cursor + |PiecesText(pieces[..i])|;
            && from <= |text|
            && var m := rules.search(t, text, from);
               m.Some? ==> m.value.start >= from + |pieces[i].text|
    decreases |text| - cursor
  {
    hide PiecesFrom, PiecesText, PiecesTerms, BestOfAll, Rules.Valid;
    PiecesUnfold(rules, seen, text, cursor);
    PiecesKeepText(rules, seen, text, cursor);
    UnseenIsNoBetter(rules, seen, text, cursor, t);
    NoPieces();
    var pieces := PiecesFrom(rules, seen, text, cursor).0;
    var best := BestOfAll(rules, seen, text, cursor);
    if best.None? {
      assert pieces[..i] == [];
    } else {
      var c := best.value;
      var step := Step(text, cursor, c);
      var rest := PiecesFrom(rules, seen + {c.term.slug}, text, c.end).0;
      if i < |step| {
        assert i == 0 && pieces[..i] == [];
      } else {
        WordsHoldNoMatch(rules, seen + {c.term.slug}, text, c.end, i - |step|, t);
        StepFacts(text, cursor, c);
        PiecesConcat(step, rest[..i - |step|]);
        assert pieces[..i] == step + rest[..i - |step|];
      }
    }
  }

  /** The term does not match the text, or another one matches no later; white space is not searched. */
  ghost predicate Unmatched(rules: Rules, text: string, t: Term) {
    var m := rules.search(t, text, 0);
    || rules.blank(text) || m.None?
    || exists u :: u in rules.glossary && u.slug != t.slug
                   && rules.search(u, text, 0).Some? && rules.search(u, text, 0).value.start <= m.value.start
  }

  lemma UnseenIsUnmatched(rules: Rules, seen: set<string>, text: string, t: Term)
    requires rules.Valid() && t in rules.glossary && t.slug !in Pieces(rules, seen, text).1
    ensures Unmatched(rules, text, t)
  {
    if !rules.blank(text) && rules.search(t, text, 0).Some? {
      PiecesKeepText(rules, seen, text, 0);
      PiecesUnfold(rules, seen, text, 0);
      hide PiecesFrom, BestOfAll, Rules.Valid, PiecesText, PiecesTerms;
      UnseenIsNoBetter(rules, seen, text, 0, t);
      BestOfAllIsMatch(rules, seen, text, 0);
      var best := BestOfAll(rules, seen, text, 0);
      PiecesKeepText(rules, seen + {best.value.term.slug}, text, best.value.end);
    }
  }

  // ---------------------------------------------------------------- the page

  /**
   `skipped`: the walk stays out of it, by its tag or its attribute; links are skipped, as their tag is. `excluded`: left
   out of the page's text, as tooltips are. `term`: the slug of a glossary link.
   */
  datatype Elem = Elem(tag: string, skipped: bool, excluded: bool, term: Option<string>, text: string, children: seq<Elem>,
                       tail: string)

  function TextOf(e: Elem): string {
    if e.excluded then "" else e.text + TextOfAll(e.children)
  }

  function TextOfAll(es: seq<Elem>): string {
    if |es| == 0 then "" else TextOf(es[0]) + es[0].tail + TextOfAll(es[1..])
  }

  /** The slugs of all glossary links, with repetitions. */
  function TermsOf(e: Elem): multiset<string> {
    (if e.term.Some? then multiset{e.term.value} else multiset{}) + TermsOfAll(e.children)
  }

  function TermsOfAll(es: seq<Elem>): multiset<string> {
    if |es| == 0 then multiset{} else TermsOf(es[0]) + TermsOfAll(es[1..])
  }

  /** Zero for what the walk does not enter. */
  function Height(e: Elem): nat {
    if e.skipped then 0 else 1 + HeightOfAll(e.children)
  }

  function HeightOfAll(es: seq<Elem>): nat {
    if |es| == 0 then 0
    else if Height(es[0]) > HeightOfAll(es[1..]) then Height(es[0])
    else HeightOfAll(es[1..])
  }

  function MakeLink(term: Term, shown: string): Elem {
    Elem("a", true, false, Some(term.slug), "",
         [Elem("span", false, false, None, shown, [], ""), Elem("span", false, true, None, term.tooltip, [], "")], "")
  }

  lemma LinkFacts(term: Term, shown: string)
    ensures var e := MakeLink(term, shown);
            && TextOf(e) == shown && TermsOf(e) == multiset{term.slug} && e.skipped && e.tail == "" && e.term == Some(term.slug)
            && |e.children| == 2 && e.children[1].excluded && e.children[1].text == term.tooltip
  {
    var e := MakeLink(term, shown);
    var (a, b) := (e.children[0], e.children[1]);
    assert e.children[1..] == [b] && [b][1..] == [];
    assert TextOf(b) == "" && TextOfAll([b]) == "";
    assert TextOf(a) == shown;
    assert TermsOf(a) == multiset{} == TermsOf(b);
    assert TermsOfAll([b]) == multiset{};
  }

  // ---------------------------------------------------------------- replacing one text

  /** A text (or tail) and the links that now follow it. */
  datatype Replacement = Replacement(text: string, links: seq<Elem>)

  /** Words go to the text before the first link, to the last link's tail after it. */
  function Append(r: Replacement, p: Piece): Replacement {
    match p
    case Link(term, shown) => r.(links := r.links + [MakeLink(term, shown)])
    case Words(t) =>
      if |r.links| == 0 then r.(text := r.text + t)
      else
        var n := |r.links| - 1;
        r.(links := r.links[n := r.links[n].(tail := r.links[n].tail + t)])
  }

  function Attach(pieces: seq<Piece>): Replacement {
    if |pieces| == 0 then Replacement("", []) else Append(Attach(pieces[..|pieces| - 1]), pieces[|pieces| - 1])
  }

  function Replaced(rules: Rules, seen: set<string>, text: string): (Replacement, set<string>)
    requires rules.Valid()
  {
    var (pieces, after) := Pieces(rules, seen, text);
    (if |pieces| == 0 then Replacement(text, []) else Attach(pieces), after)
  }

  ghost predicate AllLinks(es: seq<Elem>) {
    forall i :: 0 <= i < |es| ==> es[i].skipped && es[i].term.Some?
  }

  lemma {:induction false} AllConcat(a: seq<Elem>, b: seq<Elem>)
    ensures TextOfAll(a + b) == TextOfAll(a) + TextOfAll(b)
    ensures TermsOfAll(a + b) == TermsOfAll(a) + TermsOfAll(b)
    ensures HeightOfAll(a + b) == if HeightOfAll(a) > HeightOfAll(b) then HeightOfAll(a) else HeightOfAll(b)
  {
    if |a| == 0 {
      assert a + b == b;
    } else {
      assert (a + b)[1..] == a[1..] + b;
      AllConcat(a[1..], b);
      hide TextOf, TermsOf, Height;
    }
  }

  lemma AllOne(e: Elem)
    ensures TextOfAll([e]) == TextOf(e) + e.tail && TermsOfAll([e]) == TermsOf(e) && HeightOfAll([e]) == Height(e)
  {
    assert [e][1..] == [];
    hide TextOf, TermsOf, Height;
  }

  lemma TailGrows(e: Elem, t: string)
    ensures var f := e.(tail := e.tail + t);
            TextOf(f) == TextOf(e) && TermsOf(f) == TermsOf(e) && Height(f) == Height(e)
  {
  }

  lemma AppendFacts(r: Replacement, p: Piece)
    requires AllLinks(r.links)
    ensures var q := Append(r, p);
            && AllLinks(q.links) && q.text + TextOfAll(q.links) == r.text + TextOfAll(r.links) + PiecesText([p])
            && TermsOfAll(q.links) == TermsOfAll(r.links) + PiecesTerms([p])
  {
    OnePiece(p);
    NoElems();
    hide TextOf, TextOfAll, TermsOf, TermsOfAll, PiecesText, PiecesTerms, MakeLink;
    match p
    case Link(term, shown) =>
      LinkFacts(term, shown);
      AllConcat(r.links, [MakeLink(term, shown)]);
      AllOne(MakeLink(term, shown));
    case Words(t) =>
      if |r.links| > 0 {
        var n := |r.links| - 1;
        var (front, last) := (r.links[..n], r.links[n]);
        assert r.links == front + [last];
        assert Append(r, p).links == front + [last.(tail := last.tail + t)];
        AllConcat(front, [last]);
        AllConcat(front, [last.(tail := last.tail + t)]);
        AllOne(last);
        AllOne(last.(tail := last.tail + t));
        TailGrows(last, t);
      }
  }

  lemma NoElems()
    ensures TextOfAll([]) == "" && TermsOfAll([]) == multiset{}
  {
  }

  lemma {:induction false} AttachFacts(pieces: seq<Piece>)
    ensures var r := Attach(pieces);
            && AllLinks(r.links) && r.text + TextOfAll(r.links) == PiecesText(pieces)
            && TermsOfAll(r.links) == PiecesTerms(pieces)
  {
    if |pieces| > 0 {
      var (front, p) := (pieces[..|pieces| - 1], pieces[|pieces| - 1]);
      AttachFacts(front);
      AppendFacts(Attach(front), p);
      assert pieces == front + [p];
      PiecesConcat(front, [p]);
      hide PiecesText, PiecesTerms, TextOfAll, TermsOfAll, Append;
    }
  }

  lemma ReplacedFacts(rules: Rules, seen: set<string>, text: string)
    requires rules.Valid()
    ensures var (r, after) := Replaced(rules, seen, text);
            && AllLinks(r.links) && r.text + TextOfAll(r.links) == text
            && seen <= after && TermsOfAll(r.links) == multiset(after - seen)
  {
    var (pieces, after) := Pieces(rules, seen, text);
    PiecesKeepText(rules, seen, text, 0);
    AttachFacts(pieces);
    NoElems();
    assert text[0..] == text;
    assert seen - seen == {};
    hide PiecesText, PiecesTerms, TextOfAll, TermsOfAll, Attach, PiecesFrom, BestOfAll, AllLinks;
    assert AllLinks([]) by { EmptyLinks(); }
  }

  lemma EmptyLinks()
    ensures AllLinks([])
  {
  }

  // ---------------------------------------------------------------- the walk

  lemma {:induction false} LinksAreFlat(links: seq<Elem>)
    requires AllLinks(links)
    ensures HeightOfAll(links) == 0
  {
    if |links| > 0 {
      LinksAreFlat(links[1..]);
    }
  }

  lemma LinksAddNoHeight(links: seq<Elem>, es: seq<Elem>)
    requires AllLinks(links)
    ensures HeightOfAll(links + es) == HeightOfAll(es)
  {
    LinksAreFlat(links);
    AllConcat(links, es);
  }

  function Walked(rules: Rules, e: Elem, seen: set<string>): (Elem, set<string>)
    requires rules.Valid()
    decreases Height(e), 0, 0
  {
    if e.skipped then (e, seen)
    else
      ReplacedFacts(rules, seen, e.text);
      var (r, after) := Replaced(rules, seen, e.text);
      LinksAddNoHeight(r.links, e.children);
      var (children, end) := WalkedAll(rules, r.links + e.children, after);
      (e.(text := r.text, children := children), end)
  }

  /** The children from some position on: each is walked and its tail replaced; links made from a tail are not walked. */
  function WalkedAll(rules: Rules, es: seq<Elem>, seen: set<string>): (seq<Elem>, set<string>)
    requires rules.Valid()
    decreases HeightOfAll(es), 1, |es|
  {
    if |es| == 0 then ([], seen)
    else
      var (child, s1) := Walked(rules, es[0], seen);
      var (r, s2) := Replaced(rules, s1, child.tail);
      var (rest, s3) := WalkedAll(rules, es[1..], s2);
      ([child.(tail := r.text)] + r.links + rest, s3)
  }

  lemma WalkedUnfold(rules: Rules, e: Elem, seen: set<string>)
    requires rules.Valid() && !e.skipped
    ensures var (r, after) := Replaced(rules, seen, e.text);
            var (children, end) := WalkedAll(rules, r.links + e.children, after);
            && AllLinks(r.links) && HeightOfAll(r.links + e.children) < Height(e)
            && Walked(rules, e, seen) == (e.(text := r.text, children := children), end)
  {
    hide Replaced, WalkedAll, AllLinks;
    ReplacedFacts(rules, seen, e.text);
    LinksAddNoHeight(Replaced(rules, seen, e.text).0.links, e.children);
  }

  lemma WalkedNothing(rules: Rules, seen: set<string>)
    requires rules.Valid()
    ensures WalkedAll(rules, [], seen) == ([], seen)
  {
  }

  lemma WalkedAllUnfold(rules: Rules, es: seq<Elem>, seen: set<string>)
    requires rules.Valid() && |es| > 0
    ensures Height(es[0]) <= HeightOfAll(es) && HeightOfAll(es[1..]) <= HeightOfAll(es)
    ensures var (child, s1) := Walked(rules, es[0], seen);
            var (r, s2) := Replaced(rules, s1, child.tail);
            var (rest, s3) := WalkedAll(rules, es[1..], s2);
            WalkedAll(rules, es, seen) == ([child.(tail := r.text)] + r.links + rest, s3)
  {
    hide Replaced, Walked, Height;
  }

  // ---------------------------------------------------------------- undoing the links

  /** Links folded back into the text or tail they were cut from; skipped elements are not looked into. */
  function Unlinked(e: Elem): Elem
    decreases e
  {
    if e.skipped then e
    else
      var (text, children) := Merged(e.text, e.children);
      e.(text := text, children := children)
  }

  /** The text before the elements with their leading links folded in, and the elements without links. */
  function Merged(text: string, es: seq<Elem>): (string, seq<Elem>)
    decreases es
  {
    if |es| == 0 then (text, [])
    else if es[0].term.Some? then Merged(text + TextOf(es[0]) + es[0].tail, es[1..])
    else
      var (tail, rest) := Merged(es[0].tail, es[1..]);
      (text, [Unlinked(es[0]).(tail := tail)] + rest)
  }

  /** Link elements are skipped ones, as everywhere outside skipped elements of a page. */
  ghost predicate Tidy(e: Elem)
    decreases e
  {
    if e.term.Some? then e.skipped else e.skipped || TidyAll(e.children)
  }

  ghost predicate TidyAll(es: seq<Elem>)
    decreases es
  {
    |es| == 0 || (Tidy(es[0]) && TidyAll(es[1..]))
  }

  lemma {:induction false} TidyConcat(links: seq<Elem>, es: seq<Elem>)
    requires AllLinks(links) && TidyAll(es)
    ensures TidyAll(links + es)
  {
    if |links| == 0 {
      assert links + es == es;
    } else {
      assert (links + es)[1..] == links[1..] + es;
      TidyConcat(links[1..], es);
    }
  }

  lemma {:induction false} MergedLinks(text: string, links: seq<Elem>, es: seq<Elem>)
    requires AllLinks(links)
    ensures Merged(text, links + es) == Merged(text + TextOfAll(links), es)
    decreases |links|
  {
    hide TextOf, AllLinks;
    if |links| == 0 {
      assert links + es == es && text + "" == text;
    } else {
      var x := links[0];
      FirstIsLink(links);
      assert (links + es)[0] == x && (links + es)[1..] == links[1..] + es;
      MergedLinks(text + TextOf(x) + x.tail, links[1..], es);
      assert text + TextOf(x) + x.tail + TextOfAll(links[1..]) == text + (TextOf(x) + x.tail + TextOfAll(links[1..]));
    }
  }

  lemma FirstIsLink(links: seq<Elem>)
    requires AllLinks(links) && |links| > 0
    ensures links[0].skipped && links[0].term.Some? && AllLinks(links[1..])
  {
  }

  /** After one child: its replaced tail and the links from it fold back to its own tail. */
  lemma TailFoldsBack(text: string, r: Replacement, tail: string, rest: seq<Elem>)
    requires AllLinks(r.links) && r.text + TextOfAll(r.links) == tail
    ensures Merged(text + r.text, r.links + rest) == Merged(text + tail, rest)
  {
    hide Merged;
    MergedLinks(text + r.text, r.links, rest);
    assert text + r.text + TextOfAll(r.links) == text + (r.text + TextOfAll(r.links));
  }

  lemma MergedFirst(text: string, x: Elem, es: seq<Elem>)
    ensures Merged(text, [x] + es) ==
            if x.term.Some? then Merged(text + TextOf(x) + x.tail, es)
            else
              var (tail, rest) := Merged(x.tail, es);
              (text, [Unlinked(x).(tail := tail)] + rest)
  {
    assert ([x] + es)[1..] == es;
    hide TextOf;
  }

  lemma TailIsApart(e: Elem, tail: string)
    ensures Unlinked(e.(tail := tail)) == Unlinked(e).(tail := tail) && TextOf(e.(tail := tail)) == TextOf(e)
  {
    hide Merged;
  }

  lemma WalkedKeepsFrame(rules: Rules, e: Elem, seen: set<string>)
    requires rules.Valid()
    ensures var r := Walked(rules, e, seen).0; r.tail == e.tail && r.term == e.term && r.skipped == e.skipped
    ensures e.skipped ==> Walked(rules, e, seen) == (e, seen)
  {
    hide WalkedAll, Replaced;
  }

  /**
   The walk changes nothing but links: folding the links of the result back gives what folding back the links of the
   page gives. In particular all text and structure are kept, and a skipped element is left as it was.
   */
  lemma {:induction false} WalkedUnlinks(rules: Rules, e: Elem, seen: set<string>)
    requires rules.Valid() && Tidy(e)
    ensures Unlinked(Walked(rules, e, seen).0) == Unlinked(e)
    decreases Height(e), 0, 0
  {
    if !e.skipped {
      ReplacedFacts(rules, seen, e.text);
      var (r, after) := Replaced(rules, seen, e.text);
      LinksAddNoHeight(r.links, e.children);
      var all := r.links + e.children;
      TidyConcat(r.links, e.children);
      var walked := WalkedAll(rules, all, after).0;
      WalkedAllUnlinks(rules, all, after, r.text);
      hide Merged, Replaced, WalkedAll, Tidy, TidyAll;
      MergedLinks(r.text, r.links, e.children);
      assert Merged(r.text, walked) == Merged(e.text, e.children);
    }
  }

  lemma LinkMerges(text: string, x: Elem, r: Replacement, rest: seq<Elem>, es: seq<Elem>)
    requires x.term.Some? && AllLinks(r.links) && r.text + TextOfAll(r.links) == x.tail
    requires Merged(text + TextOf(x) + x.tail, rest) == Merged(text + TextOf(x) + x.tail, es)
    ensures Merged(text, [x.(tail := r.text)] + (r.links + rest)) == Merged(text, [x] + es)
  {
    hide Merged, TextOf, TextOfAll, AllLinks;
    MergedFirst(text, x.(tail := r.text), r.links + rest);
    TailIsApart(x, r.text);
    TailFoldsBack(text + TextOf(x), r, x.tail, rest);
    MergedFirst(text, x, es);
  }

  lemma ChildMerges(text: string, x: Elem, child: Elem, r: Replacement, rest: seq<Elem>, es: seq<Elem>)
    requires x.term.None? && child.term.None? && Unlinked(child) == Unlinked(x)
    requires AllLinks(r.links) && r.text + TextOfAll(r.links) == x.tail
    requires Merged(x.tail, rest) == Merged(x.tail, es)
    ensures Merged(text, [child.(tail := r.text)] + (r.links + rest)) == Merged(text, [x] + es)
  {
    hide Merged, TextOf, TextOfAll, AllLinks, Unlinked;
    MergedFirst(text, child.(tail := r.text), r.links + rest);
    TailIsApart(child, r.text);
    TailFoldsBack("", r, x.tail, rest);
    assert "" + r.text == r.text && "" + x.tail == x.tail;
    MergedFirst(text, x, es);
  }

  lemma {:induction false} WalkedAllUnlinks(rules: Rules, es: seq<Elem>, seen: set<string>, text: string)
    requires rules.Valid() && TidyAll(es)
    ensures Merged(text, WalkedAll(rules, es, seen).0) == Merged(text, es)
    decreases HeightOfAll(es), 1, |es|
  {
    if |es| > 0 {
      TidyFirst(es);
      hide Merged, Walked, Replaced, TextOf, TextOfAll, AllLinks, Unlinked, Tidy, TidyAll, WalkedAll, Height, HeightOfAll;
      var (x, more) := (es[0], es[1..]);
      assert es == [x] + more;
      WalkedAllUnfold(rules, es, seen);
      var (child, s1) := Walked(rules, x, seen);
      var (r, s2) := Replaced(rules, s1, child.tail);
      var (rest, s3) := WalkedAll(rules, more, s2);
      WalkedKeepsFrame(rules, x, seen);
      ReplacedFacts(rules, s1, child.tail);
      assert [child.(tail := r.text)] + r.links + rest == [child.(tail := r.text)] + (r.links + rest);
      if x.term.Some? {
        WalkedAllUnlinks(rules, more, s2, text + TextOf(x) + x.tail);
        LinkMerges(text, x, r, rest, more);
      } else {
        WalkedUnlinks(rules, x, seen);
        WalkedAllUnlinks(rules, more, s2, x.tail);
        ChildMerges(text, x, child, r, rest, more);
      }
    } else {
      assert WalkedAll(rules, es, seen).0 == es;
    }
  }

  lemma TidyFirst(es: seq<Elem>)
    requires TidyAll(es) && |es| > 0
    ensures Tidy(es[0]) && TidyAll(es[1..]) && (es[0].term.Some? ==> es[0].skipped)
  {
  }

  /** No link outside skipped elements. */
  ghost predicate Plain(e: Elem)
    decreases e
  {
    e.term.None? && (e.skipped || PlainAll(e.children))
  }

  ghost predicate PlainAll(es: seq<Elem>)
    decreases es
  {
    |es| == 0 || (Plain(es[0]) && PlainAll(es[1..]))
  }

  lemma {:induction false} PlainIsUnlinked(e: Elem)
    requires Plain(e)
    ensures Tidy(e) && Unlinked(e) == e
    decreases e
  {
    if !e.skipped {
      PlainIsMerged(e.text, e.children);
    }
  }

  lemma {:induction false} PlainIsMerged(text: string, es: seq<Elem>)
    requires PlainAll(es)
    ensures TidyAll(es) && Merged(text, es) == (text, es)
    decreases es
  {
    if |es| > 0 {
      PlainIsUnlinked(es[0]);
      PlainIsMerged(es[0].tail, es[1..]);
      assert es == [es[0]] + es[1..];
    }
  }

  /** On a page without links, folding back the links of the result gives the page again. */
  lemma WalkRoundTrip(rules: Rules, page: Elem, seen: set<string>)
    requires rules.Valid() && Plain(page)
    ensures Unlinked(Walked(rules, page, seen).0) == page
  {
    hide Walked, Unlinked;
    PlainIsUnlinked(page);
    WalkedUnlinks(rules, page, seen);
  }

  // ---------------------------------------------------------------- text and terms

  lemma ChildFacts(y: Elem, r: Replacement, rest: seq<Elem>)
    ensures var all := [y] + r.links + rest;
            && TextOfAll(all) == TextOf(y) + (y.tail + TextOfAll(r.links)) + TextOfAll(rest)
            && TermsOfAll(all) == TermsOf(y) + TermsOfAll(r.links) + TermsOfAll(rest)
  {
    hide TextOf, TextOfAll, TermsOf, TermsOfAll;
    AllOne(y);
    AllConcat([y], r.links);
    AllConcat([y] + r.links, rest);
  }

  lemma MoreSeen(a: set<string>, b: set<string>, c: set<string>)
    requires a <= b <= c
    ensures a <= c && multiset(c - a) == multiset(b - a) + multiset(c - b)
  {
    assert c - a == (b - a) + (c - b);
  }

  lemma SameSeen(a: set<string>)
    ensures multiset(a - a) == multiset{}
  {
    assert a - a == {};
  }

  lemma Cancels<T>(r: multiset<T>, e: multiset<T>, below: multiset<T>, children: multiset<T>, links: multiset<T>, more: multiset<T>)
    requires r + below == e + children && children == links + below + more
    ensures r == e + (links + more)
  {
    forall x: T ensures r[x] == (e + (links + more))[x] {
      assert (r + below)[x] == (e + children)[x];
    }
  }

  lemma FrameFacts(e: Elem, text: string, children: seq<Elem>)
    ensures TermsOf(e.(text := text, children := children)) + TermsOfAll(e.children) == TermsOf(e) + TermsOfAll(children)
    ensures text + TextOfAll(children) == e.text + TextOfAll(e.children) ==> TextOf(e.(text := text, children := children)) == TextOf(e)
  {
    hide TextOfAll, TermsOfAll;
  }

  lemma TailFacts(e: Elem, tail: string)
    ensures TextOf(e.(tail := tail)) == TextOf(e) && TermsOf(e.(tail := tail)) == TermsOf(e)
  {
  }

  /** The page's text is unchanged, tooltips left out, and the links added are of terms not seen before, each once. */
  lemma {:induction false} WalkedKeepsText(rules: Rules, e: Elem, seen: set<string>)
    requires rules.Valid()
    ensures var (r, after) := Walked(rules, e, seen);
            && TextOf(r) == TextOf(e) && seen <= after && TermsOf(r) == TermsOf(e) + multiset(after - seen)
    decreases Height(e), 0, 0
  {
    hide TextOf, TextOfAll, TermsOf, TermsOfAll, Replaced, Walked, WalkedAll, AllLinks, Height, HeightOfAll, Rules.Valid;
    if e.skipped {
      WalkedKeepsFrame(rules, e, seen);
      SameSeen(seen);
    } else {
      ReplacedFacts(rules, seen, e.text);
      WalkedUnfold(rules, e, seen);
      var (r, after) := Replaced(rules, seen, e.text);
      var (children, end) := WalkedAll(rules, r.links + e.children, after);
      WalkedAllKeepsText(rules, r.links + e.children, after);
      AllConcat(r.links, e.children);
      MoreSeen(seen, after, end);
      FrameFacts(e, r.text, children);
      Cancels(TermsOf(Walked(rules, e, seen).0), TermsOf(e), TermsOfAll(e.children), TermsOfAll(children), TermsOfAll(r.links),
              multiset(end - after));
      assert r.text + (TextOfAll(r.links) + TextOfAll(e.children)) == r.text + TextOfAll(r.links) + TextOfAll(e.children);
    }
  }

  lemma {:induction false} WalkedAllKeepsText(rules: Rules, es: seq<Elem>, seen: set<string>)
    requires rules.Valid()
    ensures var (r, after) := WalkedAll(rules, es, seen);
            && TextOfAll(r) == TextOfAll(es) && seen <= after && TermsOfAll(r) == TermsOfAll(es) + multiset(after - seen)
    decreases HeightOfAll(es), 1, |es|
  {
    if |es| == 0 {
      SameSeen(seen);
    } else {
      var (child, s1) := Walked(rules, es[0], seen);
      var (r, s2) := Replaced(rules, s1, child.tail);
      var (rest, s3) := WalkedAll(rules, es[1..], s2);
      WalkedKeepsText(rules, es[0], seen);
      WalkedKeepsFrame(rules, es[0], seen);
      ReplacedFacts(rules, s1, child.tail);
      WalkedAllKeepsText(rules, es[1..], s2);
      assert TextOfAll(es) == TextOf(es[0]) + es[0].tail + TextOfAll(es[1..]);
      assert TermsOfAll(es) == TermsOf(es[0]) + TermsOfAll(es[1..]);
      hide TextOf, TextOfAll, TermsOf, TermsOfAll, Replaced, Walked, AllLinks;
      TailFacts(child, r.text);
      ChildFacts(child.(tail := r.text), r, rest);
      MoreSeen(seen, s1, s2);
      MoreSeen(seen, s2, s3);
    }
  }

  /** With nothing seen at the start, each term is linked at most once on a page that had no links. */
  lemma LinkedAtMostOnce(rules: Rules, page: Elem, slug: string)
    requires rules.Valid() && TermsOf(page) == multiset{}
    ensures TermsOf(Walked(rules, page, {}).0)[slug] <= 1
  {
    hide TermsOf, Walked;
    WalkedKeepsText(rules, page, {});
  }

  /** The term is unmatched in every text and tail outside skipped elements. */
  ghost predicate LeftUnmatched(rules: Rules, e: Elem, t: Term)
    decreases e
  {
    e.skipped || (Unmatched(rules, e.text, t) && AllUnmatched(rules, e.children, t))
  }

  ghost predicate AllUnmatched(rules: Rules, es: seq<Elem>, t: Term)
    decreases es
  {
    |es| == 0 || (LeftUnmatched(rules, es[0], t) && Unmatched(rules, es[0].tail, t) && AllUnmatched(rules, es[1..], t))
  }

  lemma {:induction false} UnmatchedSuffix(rules: Rules, a: seq<Elem>, b: seq<Elem>, t: Term)
    requires AllUnmatched(rules, a + b, t)
    ensures AllUnmatched(rules, b, t)
  {
    if |a| == 0 {
      assert a + b == b;
    } else {
      assert (a + b)[1..] == a[1..] + b;
      UnmatchedSuffix(rules, a[1..], b, t);
    }
  }

  lemma ReplacedUnmatched(rules: Rules, seen: set<string>, text: string, t: Term)
    requires rules.Valid() && t in rules.glossary && t.slug !in Replaced(rules, seen, text).1
    ensures Unmatched(rules, text, t)
  {
    hide Pieces, Attach, Unmatched;
    UnseenIsUnmatched(rules, seen, text, t);
  }

  /** The walk misses nothing: a term it leaves unseen is unmatched in every text and tail it was to look at. */
  lemma {:induction false} WalkLeavesUnmatched(rules: Rules, e: Elem, seen: set<string>, t: Term)
    requires rules.Valid() && t in rules.glossary && t.slug !in Walked(rules, e, seen).1
    ensures LeftUnmatched(rules, e, t)
    decreases Height(e), 0
  {
    hide Replaced, Walked, WalkedAll, AllLinks, Height, HeightOfAll, Rules.Valid, Unmatched, AllUnmatched;
    if !e.skipped {
      WalkedUnfold(rules, e, seen);
      var (r, after) := Replaced(rules, seen, e.text);
      SeenGrows(rules, r.links + e.children, after);
      ReplacedUnmatched(rules, seen, e.text, t);
      WalkAllLeavesUnmatched(rules, r.links + e.children, after, t);
      UnmatchedSuffix(rules, r.links, e.children, t);
    }
  }

  lemma SeenGrows(rules: Rules, es: seq<Elem>, seen: set<string>)
    requires rules.Valid()
    ensures seen <= WalkedAll(rules, es, seen).1
  {
    hide WalkedAll, TextOfAll, TermsOfAll, Rules.Valid;
    WalkedAllKeepsText(rules, es, seen);
  }

  lemma {:induction false} WalkAllLeavesUnmatched(rules: Rules, es: seq<Elem>, seen: set<string>, t: Term)
    requires rules.Valid() && t in rules.glossary && t.slug !in WalkedAll(rules, es, seen).1
    ensures AllUnmatched(rules, es, t)
    decreases HeightOfAll(es), 1, |es|
  {
    hide Replaced, Walked, WalkedAll, AllLinks, Height, Rules.Valid, Unmatched, LeftUnmatched, TermsOfAll, TextOfAll;
    if |es| > 0 {
      WalkedAllUnfold(rules, es, seen);
      WalkedKeepsFrame(rules, es[0], seen);
      var (child, s1) := Walked(rules, es[0], seen);
      var (r, s2) := Replaced(rules, s1, child.tail);
      ReplacedFacts(rules, s1, child.tail);
      SeenGrows(rules, es[1..], s2);
      WalkLeavesUnmatched(rules, es[0], seen, t);
      ReplacedUnmatched(rules, s1, child.tail, t);
      WalkAllLeavesUnmatched(rules, es[1..], s2, t);
    }
  }

  // ---------------------------------------------------------------- the loop over the children

  /** The children before `idx` are final, and those from `idx` on remain to be walked. */
  ghost predicate Progress(rules: Rules, all: (seq<Elem>, set<string>), children: seq<Elem>, idx: nat, seen: set<string>)
    requires rules.Valid()
  {
    && idx <= |children|
    && all == (children[..idx] + WalkedAll(rules, children[idx..], seen).0, WalkedAll(rules, children[idx..], seen).1)
  }

  lemma ProgressStart(rules: Rules, children: seq<Elem>, seen: set<string>)
    requires rules.Valid()
    ensures Progress(rules, WalkedAll(rules, children, seen), children, 0, seen) && children[0..] == children
  {
    hide WalkedAll;
    var all := WalkedAll(rules, children, seen);
    assert children[0..] == children && children[..0] + all.0 == all.0;
  }

  lemma ProgressStep(rules: Rules, all: (seq<Elem>, set<string>), before: seq<Elem>, at: nat, from: set<string>,
                     after: seq<Elem>, next: nat, seen: set<string>)
    requires rules.Valid() && at < |before| && Progress(rules, all, before, at, from)
    requires at < next <= |after| && after[next..] == before[at + 1..] && after[..at] == before[..at]
    requires WalkedAll(rules, before[at..], from)
          == (after[at..next] + WalkedAll(rules, before[at + 1..], seen).0, WalkedAll(rules, before[at + 1..], seen).1)
    ensures Progress(rules, all, after, next, seen)
  {
    hide WalkedAll, Rules.Valid;
    var rest := WalkedAll(rules, before[at + 1..], seen).0;
    assert after[..next] == before[..at] + after[at..next];
    assert before[..at] + (after[at..next] + rest) == after[..next] + rest;
  }

  lemma ProgressEnd(rules: Rules, all: (seq<Elem>, set<string>), children: seq<Elem>, seen: set<string>)
    requires rules.Valid() && Progress(rules, all, children, |children|, seen)
    ensures all == (children, seen)
  {
    hide WalkedAll, Rules.Valid;
    WalkedNothing(rules, seen);
    assert children[..|children|] + [] == children && children[|children|..] == [];
  }

  // ---------------------------------------------------------------- replacing in place

  /** The text of an element (index -1) or the tail of one of its children. */
  function TextAt(parent: Elem, index: int): string
    requires -1 <= index < |parent.children|
  {
    if index == -1 then parent.text else parent.children[index].tail
  }

  function WithTextAt(parent: Elem, index: int, text: string): Elem
    requires -1 <= index < |parent.children|
  {
    if index == -1 then parent.(text := text)
    else parent.(children := parent.children[index := parent.children[index].(tail := text)])
  }

  /** The replacement put in: its text where the old one was, its links right behind. */
  function Placed(parent: Elem, index: int, done: Replacement): (r: Elem)
    requires -1 <= index < |parent.children|
    ensures |r.children| == |parent.children| + |done.links|
  {
    var p := WithTextAt(parent, index, done.text);
    p.(children := p.children[..index + 1] + done.links + p.children[index + 1..])
  }

  lemma PlacedNothing(parent: Elem, index: int)
    requires -1 <= index < |parent.children|
    ensures Placed(parent, index, Replacement(TextAt(parent, index), [])) == parent
  {
    var p := WithTextAt(parent, index, TextAt(parent, index));
    assert p.children == parent.children;
    assert p.children[..index + 1] + [] + p.children[index + 1..] == p.children;
  }

  lemma PlacedText(parent: Elem, index: int, done: Replacement)
    requires -1 <= index < |parent.children| && done.links == []
    ensures Placed(parent, index, done) == WithTextAt(parent, index, done.text)
  {
    var p := WithTextAt(parent, index, done.text);
    assert p.children[..index + 1] + [] + p.children[index + 1..] == p.children;
  }

  lemma PlacedFirst(parent: Elem, done: Replacement)
    ensures TextAt(parent, -1) == parent.text
    ensures Placed(parent, -1, done) == parent.(text := done.text, children := done.links + parent.children)
  {
    assert parent.children[..0] + done.links + parent.children[0..] == done.links + parent.children;
  }

  lemma PlacedInTail(parent: Elem, idx: nat, child: Elem, done: Replacement)
    requires idx < |parent.children|
    ensures TextAt(parent.(children := parent.children[idx := child]), idx) == child.tail
    ensures var r := Placed(parent.(children := parent.children[idx := child]), idx, done);
            var next := idx + |done.links| + 1;
            && r == parent.(children := r.children) && next <= |r.children|
            && r.children[idx..next] == [child.(tail := done.text)] + done.links
            && r.children[next..] == parent.children[idx + 1..] && r.children[..idx] == parent.children[..idx]
  {
    var r := Placed(parent.(children := parent.children[idx := child]), idx, done);
    assert r.children == parent.children[..idx] + ([child.(tail := done.text)] + done.links) + parent.children[idx + 1..];
  }

  /** Words behind the last inserted link go to its tail. */
  lemma PlacedWords(parent: Elem, index: int, done: Replacement, text: string)
    requires -1 <= index < |parent.children| && |done.links| > 0
    ensures var (r, at) := (Placed(parent, index, done), index + |done.links|);
            Placed(parent, index, Append(done, Words(text))) == WithTextAt(r, at, TextAt(r, at) + text)
  {
    var (r, at) := (Placed(parent, index, done), index + |done.links|);
    var to := Placed(parent, index, Append(done, Words(text)));
    assert r.children[at] == done.links[|done.links| - 1];
    assert to.children == r.children[at := r.children[at].(tail := TextAt(r, at) + text)];
  }

  lemma PlacedLink(parent: Elem, index: int, done: Replacement, link: Elem)
    requires -1 <= index < |parent.children|
    ensures var (r, at) := (Placed(parent, index, done), index + |done.links| + 1);
            Placed(parent, index, done.(links := done.links + [link])) == r.(children := r.children[..at] + [link] + r.children[at..])
  {
    var (r, at) := (Placed(parent, index, done), index + |done.links| + 1);
    var to := Placed(parent, index, done.(links := done.links + [link]));
    assert to.children == r.children[..at] + [link] + r.children[at..];
  }

  ghost predicate NoTwoWords(pieces: seq<Piece>) {
    forall i :: 0 < i < |pieces| && pieces[i].Words? ==> pieces[i - 1].Link?
  }

  lemma {:induction false} PiecesAlternate(rules: Rules, seen: set<string>, text: string, cursor: nat)
    requires rules.Valid() && cursor <= |text|
    ensures NoTwoWords(PiecesFrom(rules, seen, text, cursor).0)
    decreases |text| - cursor
  {
    hide PiecesFrom, BestOfAll, Rules.Valid;
    PiecesUnfold(rules, seen, text, cursor);
    var best := BestOfAll(rules, seen, text, cursor);
    if best.Some? {
      PiecesAlternate(rules, seen + {best.value.term.slug}, text, best.value.end);
    }
  }

  /** Words never follow words, so there is always a link whose tail takes them. */
  lemma WordsFollowLinks(rules: Rules, seen: set<string>, text: string)
    requires rules.Valid()
    ensures NoTwoWords(Pieces(rules, seen, text).0)
  {
    PiecesAlternate(rules, seen, text, 0);
  }

  /** What the first piece, if it is words, contributes. */
  lemma AttachStart(pieces: seq<Piece>)
    requires |pieces| > 0
    ensures Attach(pieces[..0]) == Replacement("", [])
    ensures pieces[0].Words? ==> Attach(pieces[..1]) == Replacement(pieces[0].text, [])
  {
    assert pieces[..1][..0] == [];
  }

  lemma AttachMore(pieces: seq<Piece>)
    ensures forall i :: 0 <= i < |pieces| ==> Attach(pieces[..i + 1]) == Append(Attach(pieces[..i]), pieces[i])
    ensures |pieces| > 0 ==> pieces[..|pieces|] == pieces
  {
    hide Append;
    forall i | 0 <= i < |pieces| ensures Attach(pieces[..i + 1]) == Append(Attach(pieces[..i]), pieces[i]) {
      assert pieces[..i + 1][..i] == pieces[..i];
    }
  }

  // ---------------------------------------------------------------- the processor

  class GlossaryTreeprocessor {
    const rules: Rules
    var seen: set<string>

    constructor (rules: Rules)
      ensures this.rules == rules && seen == {}
    {
      this.rules := rules;
      seen := {};
    }

    method FindBest(text: string, cursor: nat) returns (best: Option<Candidate>)
      ensures best == BestOfAll(rules, seen, text, cursor)
    {
      best := None;
      for i := 0 to |rules.glossary|
        invariant best == Best(rules, i, seen, text, cursor)
      {
        var term := rules.glossary[i];
        if term.slug !in seen {
          var found := rules.search(term, text, cursor);
          if found.Some? {
            var candidate := Candidate(term, found.value.start, found.value.end);
            if best.None? {
              best := Some(candidate);
            } else if candidate.start < best.value.start {
              best := Some(candidate);
            } else if candidate.start == best.value.start
                      && candidate.end - candidate.start > best.value.end - best.value.start {
              best := Some(candidate);
            }
          }
        }
      }
    }

    /** The words before a match, if any, and its link. */
    method AddLink(pieces: seq<Piece>, text: string, cursor: nat, c: Candidate) returns (r: seq<Piece>)
      requires cursor <= c.start <= c.end <= |text|
      ensures r == pieces + Step(text, cursor, c) && r != []
    {
      r := pieces;
      if c.start > cursor {
        r := r + [Words(text[cursor..c.start])];
      }
      r := r + [Link(c.term, text[c.start..c.end])];
      assert r == pieces + Step(text, cursor, c);
    }

    method MakePieces(text: string) returns (pieces: seq<Piece>)
      requires rules.Valid()
      modifies this
      ensures (pieces, seen) == Pieces(rules, old(seen), text)
    {
      hide *;
      PiecesOf(rules, seen, text);
      pieces := [];
      if rules.blank(text) {
        return;
      }
      var cursor := 0;
      var best := FindBest(text, cursor);
      ghost var (found, all) := (best.Some?, PiecesFrom(rules, seen, text, 0));
      assert [] + all.0 == all.0;
      while best.Some?
        invariant cursor <= |text| && best == BestOfAll(rules, seen, text, cursor)
        invariant all.0 == pieces + PiecesFrom(rules, seen, text, cursor).0 && all.1 == PiecesFrom(rules, seen, text, cursor).1
        invariant pieces == [] ==> cursor == 0 && seen == old(seen)
        invariant pieces != [] ==> found
        decreases |text| - cursor
      {
        PiecesUnfold(rules, seen, text, cursor);
        ghost var rest := PiecesFrom(rules, seen + {best.value.term.slug}, text, best.value.end).0;
        assert pieces + (Step(text, cursor, best.value) + rest) == pieces + Step(text, cursor, best.value) + rest;
        pieces := AddLink(pieces, text, cursor, best.value);
        seen := seen + {best.value.term.slug};
        cursor := best.value.end;
        best := FindBest(text, cursor);
      }
      PiecesUnfold(rules, seen, text, cursor);
      assert pieces + [] == pieces;
      if |pieces| == 0 {
        return;
      }
      if cursor < |text| {
        pieces := pieces + [Words(text[cursor..])];
      }
    }

    /**
     Replaces the text of `parent` (index -1) or the tail of one child, inserting the links one by one behind it, each with the
     words that follow it in its tail; `at` is the index of the last one.
     */
    method Replace(parent: Elem, index: int) returns (r: Elem, at: int)
      requires rules.Valid() && -1 <= index < |parent.children|
      modifies this
      ensures var (done, after) := Replaced(rules, old(seen), TextAt(parent, index));
              r == Placed(parent, index, done) && at == index + |done.links| && seen == after
    {
      var pieces := MakePieces(TextAt(parent, index));
      if |pieces| == 0 {
        PlacedNothing(parent, index);
        return parent, index;
      }
      WordsFollowLinks(rules, old(seen), TextAt(parent, index));
      r, at := InsertAll(parent, index, pieces);
    }

    method InsertAll(parent: Elem, index: int, pieces: seq<Piece>) returns (r: Elem, at: int)
      requires -1 <= index < |parent.children| && |pieces| > 0 && NoTwoWords(pieces)
      ensures r == Placed(parent, index, Attach(pieces)) && at == index + |Attach(pieces).links|
    {
      hide Placed, Append, Attach, WithTextAt, TextAt;
      AttachMore(pieces);
      AttachStart(pieces);
      r := WithTextAt(parent, index, if pieces[0].Words? then pieces[0].text else "");
      at := index;
      var start := if pieces[0].Words? then 1 else 0;
      PlacedText(parent, index, Attach(pieces[..start]));
      for i := start to |pieces|
        invariant r == Placed(parent, index, Attach(pieces[..i])) && at == index + |Attach(pieces[..i]).links|
        invariant i > start ==> at > index
      {
        r, at := InsertPiece(r, at, pieces[i], parent, index, Attach(pieces[..i]));
      }
    }

    /** A link is inserted behind the last one, words go to the tail of the last one. */
    method InsertPiece(r: Elem, at: int, p: Piece, ghost parent: Elem, ghost index: int, ghost done: Replacement)
      returns (next: Elem, last: int)
      requires -1 <= index < |parent.children| && r == Placed(parent, index, done) && at == index + |done.links|
      requires p.Words? ==> |done.links| > 0
      ensures next == Placed(parent, index, Append(done, p)) && last == index + |Append(done, p).links| > index
    {
      match p {
        case Words(text) =>
          PlacedWords(parent, index, done, text);
          return WithTextAt(r, at, TextAt(r, at) + text), at;
        case Link(term, shown) =>
          PlacedLink(parent, index, done, MakeLink(term, shown));
          return r.(children := r.children[..at + 1] + [MakeLink(term, shown)] + r.children[at + 1..]), at + 1;
      }
    }

    /** One round of the loop over the children: `next` is beyond the child and the links its tail made. */
    method WalkChild(parent: Elem, idx: nat) returns (r: Elem, next: nat)
      requires rules.Valid() && idx < |parent.children|
      modifies this
      ensures r == parent.(children := r.children)
      ensures idx < next <= |r.children| && r.children[next..] == parent.children[idx + 1..] && r.children[..idx] == parent.children[..idx]
      ensures var rest := WalkedAll(rules, parent.children[idx + 1..], seen);
              WalkedAll(rules, parent.children[idx..], old(seen)) == (r.children[idx..next] + rest.0, rest.1)
      decreases Height(parent.children[idx]), 1
    {
      hide Replaced, Walked, WalkedAll, Rules.Valid, Placed, Height;
      var children := parent.children;
      ghost var todo := children[idx..];
      assert todo[0] == children[idx] && todo[1..] == children[idx + 1..];
      WalkedAllUnfold(rules, todo, seen);
      var child := Walk(children[idx]);
      r := parent.(children := children[idx := child]);
      var at: int;
      ghost var done := Replaced(rules, seen, child.tail).0;
      r, at := Replace(r, idx);
      next := at + 1;
      PlacedInTail(parent, idx, child, done);
    }

    method Walk(element: Elem) returns (r: Elem)
      requires rules.Valid()
      modifies this
      ensures (r, seen) == Walked(rules, element, old(seen))
      decreases Height(element), 0
    {
      if element.skipped {
        return element;
      }
      hide Replaced, Walked, WalkedAll, Rules.Valid, Height, HeightOfAll, AllLinks, Placed;
      WalkedUnfold(rules, element, seen);
      ghost var first := Replaced(rules, seen, element.text).0;
      var last: int;
      r, last := Replace(element, -1);
      PlacedFirst(element, first);
      ghost var all := WalkedAll(rules, r.children, seen);
      var idx := 0;
      ProgressStart(rules, r.children, seen);
      hide Progress;
      while idx < |r.children|
        invariant r == element.(text := first.text, children := r.children)
        invariant idx <= |r.children| && HeightOfAll(r.children[idx..]) < Height(element)
        invariant Progress(rules, all, r.children, idx, seen)
        decreases |r.children| - idx
      {
        ChildIsLower(r.children, idx);
        ghost var (before, at, from) := (r.children, idx, seen);
        r, idx := WalkChild(r, idx);
        ProgressStep(rules, all, before, at, from, r.children, idx, seen);
      }
      ProgressEnd(rules, all, r.children, seen);
    }

    lemma ChildIsLower(children: seq<Elem>, idx: nat)
      requires idx < |children|
      ensures Height(children[idx]) <= HeightOfAll(children[idx..])
      ensures HeightOfAll(children[idx + 1..]) <= HeightOfAll(children[idx..])
    {
      assert children[idx..][1..] == children[idx + 1..];
      hide Height;
    }

    /** `run`: the glossary page itself is left alone. */
    method Run(root: Elem, isGlossaryPage: bool) returns (r: Elem)
      requires rules.Valid()
      modifies this
      ensures r == if isGlossaryPage then root else Walked(rules, root, {}).0
    {
      if isGlossaryPage {
        return root;
      }
      seen := {};
      r := Walk(root);
    }
  }
}
