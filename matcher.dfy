/**
 * The dependency-pattern matcher of the Wikipedia extractor
 * (`WikipediaExtractor.get_triples`): for every examined sentence and every
 * phrase of the fixed table that the sentence contains, the anchor token is
 * located, a subject and an object are picked among the children of fixed
 * tokens by dependency label and part of speech, and lower-cased triples are
 * added to the extractor's set.
 *
 * The HTML parsing and the spaCy parse are inputs: a sentence arrives as its
 * text, its parse and its `<a>` anchors, or as None where the HTML parser
 * raised.
 */
module Matcher {
  import opened Wrappers
  import opened PyStr
  import opened Resolver
  import Classifier

  /** An `<a>` element of a sentence: its text and its `title` attribute, if any. */
  datatype Anchor = Anchor(text: string, title: Option<string>)

  /** A sentence after HTML parsing: its text, its parse and its anchors in order. */
  datatype Sentence = Sentence(text: string, doc: Doc, anchors: seq<Anchor>)

  type Triple3 = (string, string, string)

  /** The anchor texts of a sentence. */
  function LinkTexts(anchors: seq<Anchor>): (ts: seq<string>)
    ensures |ts| == |anchors|
  {
    seq(|anchors|, k requires 0 <= k < |anchors| => anchors[k].text)
  }

  /** The anchor titles: the title where it is present and non-empty, the text otherwise. */
  function LinkTitles(anchors: seq<Anchor>): (ts: seq<string>)
    ensures |ts| == |LinkTexts(anchors)|
    ensures forall k :: 0 <= k < |anchors| && (anchors[k].title.None? || anchors[k].title == Some("")) ==>
              ts[k] == LinkTexts(anchors)[k]
  {
    seq(|anchors|, k requires 0 <= k < |anchors| =>
      match anchors[k].title
      case Some(t) => if t != "" then t else anchors[k].text
      case None => anchors[k].text)
  }

  // ---------------------------------------------------------------------
  // The phrase table and the arms of the match
  // ---------------------------------------------------------------------

  const Phrases: seq<string> := [
    " is a ", " is an ", " is the ",
    " refer to ", " refers to ",
    " consists of ",
    " include ", " includes ",
    " has a ", " have a ",
    " is composed of ",
    " made up of ",
    " made of ",
    " is part of ",
    " uses "]

  /**
   * What one arm of the match looks for. The subject is the last child of
   * the token at `subjectOffset` from the anchor with label `subjectDep`;
   * the object list comes from the last child of the token at
   * `objectOffset` with label `objectDep`.
   */
  datatype Pattern = Pattern(
    relation: string,
    reanchor: bool,        // look up `phrase.split(" ")[2]`, the phrase's second word, instead of its first
    needsAux: bool,        // the anchor token must be tagged AUX
    subjectOffset: int,
    subjectDep: string,
    pronoun: bool,         // a pronoun subject stands for the article
    objectOffset: int,
    objectDep: string)

  /** The arms of the `match phrase` statement; None is the default arm. */
  function Handler(phrase: string): Option<Pattern>
  {
    if phrase in [" is a ", " is an ", " is the ", " are the "] then
      Some(Pattern("is a", false, true, 0, "nsubj", false, 0, "attr"))
    else if phrase in [" refer to ", " refers to "] then
      Some(Pattern("is a", false, false, 0, "nsubj", true, 1, "pobj"))
    else if phrase == " consists of " then
      Some(Pattern("consist of", false, false, 0, "nsubj", true, 1, "pobj"))
    else if phrase in [" include ", " includes "] then
      Some(Pattern("include", false, false, 0, "nsubj", true, 0, "dobj"))
    else if phrase in [" has a ", " have a "] then
      Some(Pattern("have", false, false, 0, "nsubj", true, 0, "dobj"))
    else if phrase == " is composed of " then
      Some(Pattern("is composed of", true, false, 0, "nsubjpass", true, 1, "pobj"))
    else if phrase == " made up of " then
      Some(Pattern("made up of", false, false, 0, "nsubjpass", true, 2, "pobj"))
    else if phrase == " made of " then
      Some(Pattern("made of", false, false, 0, "nsubjpass", true, 1, "pobj"))
    else if phrase == " is part of " then
      Some(Pattern("part of", true, false, -1, "nsubj", true, 1, "pobj"))
    else if phrase == " uses " then
      Some(Pattern("use", false, false, 0, "nsubj", true, 0, "dobj"))
    else None
  }

  /** The relation labels the arms can produce. */
  const Labels: set<string> :=
    {"is a", "consist of", "include", "have", "is composed of", "made up of", "made of", "part of", "use"}

  /** Every phrase of the table has an arm of its own, and every arm's label is one of the labels. */
  lemma PhraseTableHandled()
    ensures forall p :: p in Phrases ==> Handler(p).Some? && Handler(p).value.relation in Labels
  {
  }

  /**
   * The " are the " alternative of the first arm can never be reached:
   * that phrase is not in the table.
   */
  lemma AreTheUnreachable()
    ensures " are the " !in Phrases && Handler(" are the ") == Handler(" is a ")
  {
  }

  /** Every arm's label is one of the labels. */
  lemma HandlerLabel(phrase: string)
    ensures Handler(phrase).Some? ==> Handler(phrase).value.relation in Labels
  {
  }

  /**
   * The labels fall into the groups the table's comments name: the first
   * five phrases give inheritance, "uses" gives association, the rest are
   * part-whole relations (aggregation, with "made up of" as composition).
   */
  lemma InheritancePhrasesTyped()
    ensures forall k :: 0 <= k < 5 ==>
              Classifier.RelationTypeOf(Handler(Phrases[k]).value.relation) == Classifier.Inheritance
  {
  }

  lemma PartWholePhrasesTyped()
    ensures forall k :: 5 <= k < 14 ==>
              Classifier.RelationTypeOf(Handler(Phrases[k]).value.relation) in
                {Classifier.Aggregation, Classifier.Composition}
  {
  }

  lemma AssociationPhraseTyped()
    ensures Classifier.RelationTypeOf(Handler(Phrases[14]).value.relation) == Classifier.Association
  {
  }

  // ---------------------------------------------------------------------
  // Picking the subject and the object
  // ---------------------------------------------------------------------

  /** Python's `doc[j]` index: a negative index counts from the end; None is an IndexError. */
  function PyIndex(n: nat, j: int): (r: Option<nat>)
    ensures r.Some? ==> r.value < n && (r.value == j || r.value == j + n)
    ensures r.None? <==> j >= n || j + n < 0
  {
    if 0 <= j < n then Some(j)
    else if 0 <= j + n && j < 0 then Some(j + n)
    else None
  }

  /** A noun or a proper noun, `pos_ in ('NOUN', 'PROPN')`. */
  predicate Nominal(pos: string)
  {
    pos == "NOUN" || pos == "PROPN"
  }

  /**
   * The subject after scanning the first `k` children of token `h`: a
   * child with label `dep` that is nominal gives its primary name; with
   * `pronoun`, one whose tag is a substring of "PRON" gives the article name.
   * A later child overrides an earlier one.
   */
  function SubjectUpTo(doc: Doc, h: nat, dep: string, pronoun: bool, article: string,
                       links: seq<string>, titles: seq<string>, k: nat): string
    requires WellFormed(doc) && h < |doc| && |titles| == |links| && k <= |doc[h].children|
  {
    if k == 0 then ""
    else
      var prev := SubjectUpTo(doc, h, dep, pronoun, article, links, titles, k - 1);
      var c := doc[h].children[k - 1];
      if doc[c].dep != dep then prev
      else
        var named := if Nominal(doc[c].pos) then FullClassName(doc, c, links, titles)[0] else prev;
        if pronoun && Contains("PRON", doc[c].pos) then article else named
  }

  /** The object list after scanning the first `k` children of token `h`. */
  function ObjectUpTo(doc: Doc, h: nat, dep: string, links: seq<string>, titles: seq<string>, k: nat): seq<string>
    requires WellFormed(doc) && h < |doc| && |titles| == |links| && k <= |doc[h].children|
  {
    if k == 0 then []
    else
      var c := doc[h].children[k - 1];
      if doc[c].dep == dep && Nominal(doc[c].pos) then FullClassName(doc, c, links, titles)
      else ObjectUpTo(doc, h, dep, links, titles, k - 1)
  }

  /** The object list is the names of the last matching child, or empty when none matches. */
  lemma {:induction false} ObjectFromLastMatch(doc: Doc, h: nat, dep: string, links: seq<string>, titles: seq<string>, k: nat)
    requires WellFormed(doc) && h < |doc| && |titles| == |links| && k <= |doc[h].children|
    ensures ObjectUpTo(doc, h, dep, links, titles, k) == [] <==>
              forall j :: 0 <= j < k ==>
                var c := doc[h].children[j]; !(doc[c].dep == dep && Nominal(doc[c].pos))
  {
    if k > 0 {
      ObjectFromLastMatch(doc, h, dep, links, titles, k - 1);
    }
  }

  /** The subject is empty when no child carries the subject label. */
  lemma {:induction false} SubjectNeedsLabel(doc: Doc, h: nat, dep: string, pronoun: bool, article: string,
                                             links: seq<string>, titles: seq<string>, k: nat)
    requires WellFormed(doc) && h < |doc| && |titles| == |links| && k <= |doc[h].children|
    requires forall j :: 0 <= j < k ==> doc[doc[h].children[j]].dep != dep
    ensures SubjectUpTo(doc, h, dep, pronoun, article, links, titles, k) == ""
  {
    if k > 0 {
      SubjectNeedsLabel(doc, h, dep, pronoun, article, links, titles, k - 1);
    }
  }

  method ScanSubject(doc: Doc, h: nat, dep: string, pronoun: bool, article: string,
                     links: seq<string>, titles: seq<string>) returns (first: string)
    requires WellFormed(doc) && h < |doc| && |titles| == |links|
    ensures first == SubjectUpTo(doc, h, dep, pronoun, article, links, titles, |doc[h].children|)
  {
    first := "";
    for k := 0 to |doc[h].children|
      invariant first == SubjectUpTo(doc, h, dep, pronoun, article, links, titles, k)
    {
      var child := doc[h].children[k];
      if doc[child].dep == dep {
        if Nominal(doc[child].pos) {
          var names := GetFullClassName(doc, child, links, titles);
          first := names[0];
        }
        if pronoun && Contains("PRON", doc[child].pos) {
          first := article;
        }
      }
    }
  }

  method ScanObject(doc: Doc, h: nat, dep: string, links: seq<string>, titles: seq<string>)
    returns (second: seq<string>)
    requires WellFormed(doc) && h < |doc| && |titles| == |links|
    ensures second == ObjectUpTo(doc, h, dep, links, titles, |doc[h].children|)
  {
    second := [];
    for k := 0 to |doc[h].children|
      invariant second == ObjectUpTo(doc, h, dep, links, titles, k)
    {
      var child := doc[h].children[k];
      if doc[child].dep == dep && Nominal(doc[child].pos) {
        second := GetFullClassName(doc, child, links, titles);
      }
    }
  }

  // ---------------------------------------------------------------------
  // One phrase in one sentence
  // ---------------------------------------------------------------------

  /**
   * What one phrase finds in a sentence: nothing (the phrase is absent or
   * its anchor word is not a token), the relation with the subject and the
   * object list, or an IndexError that ends the extraction.
   */
  datatype Outcome = Skipped | Scanned(relation: string, first: string, second: seq<string>) | Crashed

  function PhraseOutcome(s: Sentence, article: string, phrase: string): Outcome
    requires WellFormed(s.doc)
  {
    var words := Split(phrase, " ");
    if !Contains(s.text, phrase) then Skipped
    else if |words| < 2 then Crashed
    else match ListIndex(Texts(s.doc), words[1])
      case None => Skipped
      case Some(base) =>
        match Handler(phrase)
        case None => Scanned("", "", [])
        case Some(p) => ArmOutcome(s, article, words, base, p)
  }

  /** One arm of the match, from the index of the phrase's first word. */
  function ArmOutcome(s: Sentence, article: string, words: seq<string>, base: nat, p: Pattern): Outcome
    requires WellFormed(s.doc) && base < |s.doc| && |words| >= 2
  {
    if p.reanchor && |words| < 3 then Crashed
    else
      var at := if p.reanchor then ListIndex(Texts(s.doc), words[2]) else Some(base);
      if at.None? then Skipped
      else ArmScan(s, article, at.value, p)
  }

  /** The arm's AUX test and its two scans around the anchor token `at`. */
  function ArmScan(s: Sentence, article: string, at: nat, p: Pattern): Outcome
    requires WellFormed(s.doc) && at < |s.doc|
  {
    var doc := s.doc;
    if p.needsAux && doc[at].pos != "AUX" then Scanned("", "", [])
    else
      var subjectHead := PyIndex(|doc|, at + p.subjectOffset);
      var objectHead := PyIndex(|doc|, at + p.objectOffset);
      if subjectHead.None? || objectHead.None? then Crashed
      else
        var links := LinkTexts(s.anchors);
        var titles := LinkTitles(s.anchors);
        Scanned(p.relation,
                SubjectUpTo(doc, subjectHead.value, p.subjectDep, p.pronoun, article, links, titles,
                            |doc[subjectHead.value].children|),
                ObjectUpTo(doc, objectHead.value, p.objectDep, links, titles,
                           |doc[objectHead.value].children|))
  }

  /**
   * The triples an outcome adds: a triple is added exactly for a non-empty
   * object name of a scan with a non-empty subject.
   */
  function Emitted(o: Outcome): (ts: set<Triple3>)
    ensures forall t :: t in ts <==>
              o.Scanned? && o.first != "" &&
              t.0 == Lower(o.first) && t.1 == o.relation &&
              exists n :: n in o.second && n != "" && t.2 == Lower(n)
  {
    if o.Scanned? && o.first != "" && |o.second| > 0 then
      set n | n in o.second && n != "" :: (Lower(o.first), o.relation, Lower(n))
    else {}
  }

  /** Every added triple has a non-empty lower-case subject and object and an arm's label. */
  predicate Shaped(t: Triple3)
  {
    t.0 != "" && t.2 != "" && t.1 in Labels &&
    (forall c :: c in t.0 ==> !IsUpper(c)) && (forall c :: c in t.2 ==> !IsUpper(c))
  }

  lemma PhraseOutcomeShaped(s: Sentence, article: string, phrase: string)
    requires WellFormed(s.doc)
    ensures forall t :: t in Emitted(PhraseOutcome(s, article, phrase)) ==> Shaped(t)
  {
    var o := PhraseOutcome(s, article, phrase);
    forall t | t in Emitted(o)
      ensures Shaped(t)
    {
      var n :| n in o.second && n != "" && t == (Lower(o.first), o.relation, Lower(n));
      LowerProperties(o.first);
      LowerProperties(n);
      ScannedLabel(s, article, phrase);
    }
  }

  /** A scan with a subject comes from an arm, so it carries an arm's label. */
  lemma ScannedLabel(s: Sentence, article: string, phrase: string)
    requires WellFormed(s.doc)
    ensures var o := PhraseOutcome(s, article, phrase);
            o.Scanned? && o.first != "" ==> o.relation in Labels
  {
    HandlerLabel(phrase);
  }

  /** A phrase whose anchor word is not among the tokens adds nothing. */
  lemma MissingAnchorAddsNothing(s: Sentence, article: string, phrase: string)
    requires WellFormed(s.doc)
    requires |Split(phrase, " ")| >= 2 && Split(phrase, " ")[1] !in Texts(s.doc)
    ensures PhraseOutcome(s, article, phrase) == Skipped
    ensures Emitted(PhraseOutcome(s, article, phrase)) == {}
  {
  }

  /** A phrase that re-anchors on its second word adds nothing when that word is not a token. */
  lemma MissingReanchorAddsNothing(s: Sentence, article: string, phrase: string)
    requires WellFormed(s.doc)
    requires Handler(phrase).Some? && Handler(phrase).value.reanchor
    requires |Split(phrase, " ")| >= 3 && Split(phrase, " ")[2] !in Texts(s.doc)
    ensures Emitted(PhraseOutcome(s, article, phrase)) == {}
  {
  }

  /** With the anchor token not tagged AUX, the "is a" arm adds nothing. */
  lemma IsANeedsAux(s: Sentence, article: string, phrase: string, base: nat)
    requires WellFormed(s.doc) && phrase in [" is a ", " is an ", " is the "]
    requires |Split(phrase, " ")| >= 2 && ListIndex(Texts(s.doc), Split(phrase, " ")[1]) == Some(base)
    requires s.doc[base].pos != "AUX"
    ensures Emitted(PhraseOutcome(s, article, phrase)) == {}
  {
  }

  /**
   * Matching one phrase, as the loop body runs it: the containment test,
   * the anchor lookup, then the arm.
   */
  method MatchPhrase(s: Sentence, article: string, phrase: string) returns (o: Outcome)
    requires WellFormed(s.doc)
    ensures o == PhraseOutcome(s, article, phrase)
  {
    var words := Split(phrase, " ");
    if !Contains(s.text, phrase) {
      return Skipped;
    }
    if |words| < 2 {
      return Crashed;
    }
    var found := ListIndex(Texts(s.doc), words[1]);
    if found.None? {
      return Skipped;
    }
    var handler := Handler(phrase);
    if handler.None? {
      return Scanned("", "", []);
    }
    o := MatchArm(s, article, words, found.value, handler.value);
  }

  /** One arm: the optional re-anchoring, the AUX test, and the two scans of children. */
  method MatchArm(s: Sentence, article: string, words: seq<string>, base: nat, p: Pattern) returns (o: Outcome)
    requires WellFormed(s.doc) && base < |s.doc| && |words| >= 2
    ensures o == ArmOutcome(s, article, words, base, p)
  {
    var index := base;
    if p.reanchor {
      if |words| < 3 {
        return Crashed;
      }
      var again := ListIndex(Texts(s.doc), words[2]);
      if again.None? {
        return Skipped;
      }
      index := again.value;
    }
    o := ScanArm(s, article, index, p);
  }

  /** The arm's AUX test, then the subject and object loops; an index out of range raises. */
  method ScanArm(s: Sentence, article: string, index: nat, p: Pattern) returns (o: Outcome)
    requires WellFormed(s.doc) && index < |s.doc|
    ensures o == ArmScan(s, article, index, p)
  {
    var doc := s.doc;
    if p.needsAux && doc[index].pos != "AUX" {
      return Scanned("", "", []);
    }
    var links := LinkTexts(s.anchors);
    var titles := LinkTitles(s.anchors);
    var subjectHead := PyIndex(|doc|, index + p.subjectOffset);
    if subjectHead.None? {
      return Crashed;
    }
    var first := ScanSubject(doc, subjectHead.value, p.subjectDep, p.pronoun, article, links, titles);
    var objectHead := PyIndex(|doc|, index + p.objectOffset);
    if objectHead.None? {
      return Crashed;
    }
    var second := ScanObject(doc, objectHead.value, p.objectDep, links, titles);
    o := Scanned(p.relation, first, second);
  }

  // ---------------------------------------------------------------------
  // Sentences and the article
  // ---------------------------------------------------------------------

  /** The triples of the first `k` phrases of the table in one sentence, and whether one raised. */
  function SentenceScan(s: Sentence, article: string, k: nat): (r: (set<Triple3>, bool))
    requires WellFormed(s.doc) && k <= |Phrases|
  {
    if k == 0 then ({}, false)
    else
      var prev := SentenceScan(s, article, k - 1);
      if prev.1 then prev
      else
        var o := PhraseOutcome(s, article, Phrases[k - 1]);
        (prev.0 + Emitted(o), o.Crashed?)
  }

  /** One more phrase, when none has raised yet, adds its triples and reports whether it raised. */
  lemma SentenceScanStep(s: Sentence, article: string, k: nat, o: Outcome)
    requires WellFormed(s.doc) && k < |Phrases|
    requires !SentenceScan(s, article, k).1 && o == PhraseOutcome(s, article, Phrases[k])
    ensures SentenceScan(s, article, k + 1) == (SentenceScan(s, article, k).0 + Emitted(o), o.Crashed?)
  {
  }

  /** Once a phrase has raised, the later phrases of the sentence are not matched. */
  lemma {:induction false} SentenceScanStops(s: Sentence, article: string, k: nat)
    requires WellFormed(s.doc) && k <= |Phrases|
    requires SentenceScan(s, article, k).1
    ensures SentenceScan(s, article, |Phrases|) == SentenceScan(s, article, k)
    decreases |Phrases| - k
  {
    if k < |Phrases| {
      SentenceScanStops(s, article, k + 1);
    }
  }

  /** Every sentence that the HTML parser accepted has a tree-shaped parse. */
  ghost predicate Parsed(sentences: seq<Option<Sentence>>)
  {
    forall k :: 0 <= k < |sentences| && sentences[k].Some? ==> WellFormed(sentences[k].value.doc)
  }

  /**
   * The triples of a list of sentences, and whether the extraction raised;
   * a sentence the HTML parser rejected adds nothing, and nothing after a
   * raised error is examined.
   */
  function Extracted(sentences: seq<Option<Sentence>>, article: string): (r: (set<Triple3>, bool))
    requires Parsed(sentences)
  {
    if sentences == [] then ({}, false)
    else
      var prefix := sentences[..|sentences| - 1];
      var prev := Extracted(prefix, article);
      if prev.1 then prev
      else match sentences[|sentences| - 1]
        case None => prev
        case Some(s) =>
          var here := SentenceScan(s, article, |Phrases|);
          (prev.0 + here.0, here.1)
  }

  lemma {:induction false} SentenceScanShaped(s: Sentence, article: string, k: nat)
    requires WellFormed(s.doc) && k <= |Phrases|
    ensures forall t :: t in SentenceScan(s, article, k).0 ==> Shaped(t)
  {
    if k > 0 {
      SentenceScanShaped(s, article, k - 1);
      PhraseOutcomeShaped(s, article, Phrases[k - 1]);
    }
  }

  /** Every extracted triple has a non-empty lower-case subject and object and an arm's label. */
  lemma {:induction false} ExtractedShaped(sentences: seq<Option<Sentence>>, article: string)
    requires Parsed(sentences)
    ensures forall t :: t in Extracted(sentences, article).0 ==> Shaped(t)
  {
    if sentences != [] {
      ExtractedShaped(sentences[..|sentences| - 1], article);
      if sentences[|sentences| - 1].Some? {
        SentenceScanShaped(sentences[|sentences| - 1].value, article, |Phrases|);
      }
    }
  }

  /** One more sentence: what it adds when nothing has raised yet. */
  lemma ExtractedStep(sentences: seq<Option<Sentence>>, i: nat, article: string)
    requires Parsed(sentences) && i < |sentences|
    ensures Parsed(sentences[..i]) && Parsed(sentences[..i + 1])
    ensures !Extracted(sentences[..i], article).1 ==>
              Extracted(sentences[..i + 1], article) ==
                match sentences[i]
                case None => Extracted(sentences[..i], article)
                case Some(s) =>
                  var here := SentenceScan(s, article, |Phrases|);
                  (Extracted(sentences[..i], article).0 + here.0, here.1)
  {
    assert sentences[..i + 1][..i] == sentences[..i];
  }

  /** After an error, later sentences change nothing. */
  lemma {:induction false} CrashStopsExtraction(sentences: seq<Option<Sentence>>, i: nat, article: string)
    requires Parsed(sentences) && i <= |sentences|
    requires Extracted(sentences[..i], article).1
    ensures Extracted(sentences, article) == Extracted(sentences[..i], article)
  {
    if i < |sentences| {
      var prefix := sentences[..|sentences| - 1];
      assert prefix[..i] == sentences[..i];
      CrashStopsExtraction(prefix, i, article);
    } else {
      assert sentences[..i] == sentences;
    }
  }

  /** The sentences actually examined: Python's `sentences[:limit]`. */
  function Examined(sentences: seq<Option<Sentence>>, limit: int): (r: seq<Option<Sentence>>)
    ensures |r| <= |sentences|
    ensures limit >= 0 ==> |r| <= limit
    ensures r == sentences[..|r|]
  {
    Slice(sentences, 0, limit)
  }

  /** The extractor: the set of triples found so far. */
  class WikipediaExtractor {
    var triples: set<Triple3>
    const maxSentences: int

    constructor(maxSentences: int)
      ensures this.maxSentences == maxSentences && triples == {}
    {
      this.maxSentences := maxSentences;
      triples := {};
    }

    /** Add the triples of one outcome, one object name at a time. */
    method Emit(o: Outcome)
      modifies this
      ensures triples == old(triples) + Emitted(o)
    {
      if o.Scanned? && o.first != "" && |o.second| > 0 {
        ghost var before := triples;
        for j := 0 to |o.second|
          invariant triples == before + set n | n in o.second[..j] && n != "" :: (Lower(o.first), o.relation, Lower(n))
        {
          assert o.second[..j + 1] == o.second[..j] + [o.second[j]];
          var noun := o.second[j];
          if noun != "" {
            triples := triples + {(Lower(o.first), o.relation, Lower(noun))};
          }
        }
        assert o.second[..|o.second|] == o.second;
      }
    }

    /** Phrase `k` of the table on one sentence, after the earlier phrases have added their triples to `base`. */
    method ScanPhrase(s: Sentence, article: string, k: nat, ghost base: set<Triple3>) returns (crashed: bool)
      requires WellFormed(s.doc) && k < |Phrases|
      requires !SentenceScan(s, article, k).1 && triples == base + SentenceScan(s, article, k).0
      modifies this
      ensures triples == base + SentenceScan(s, article, k + 1).0
      ensures crashed == SentenceScan(s, article, k + 1).1
    {
      var o := MatchPhrase(s, article, Phrases[k]);
      SentenceScanStep(s, article, k, o);
      Emit(o);
      crashed := o.Crashed?;
    }

    /** Every phrase of the table in turn on one sentence, stopping at an IndexError. */
    method ScanSentence(s: Sentence, article: string) returns (crashed: bool)
      requires WellFormed(s.doc)
      modifies this
      ensures triples == old(triples) + SentenceScan(s, article, |Phrases|).0
      ensures crashed == SentenceScan(s, article, |Phrases|).1
    {
      crashed := false;
      for k := 0 to |Phrases|
        invariant triples == old(triples) + SentenceScan(s, article, k).0
        invariant crashed == SentenceScan(s, article, k).1
        invariant !crashed
      {
        var raised := ScanPhrase(s, article, k, old(triples));
        if raised {
          SentenceScanStops(s, article, k + 1);
          return true;
        }
      }
    }

    /**
     * Scan the examined sentences with every phrase of the table, adding
     * what each finds; `crashed` reports an IndexError, which ends the scan
     * with the triples added so far kept.
     */
    method GetTriples(sentences: seq<Option<Sentence>>, article: string) returns (crashed: bool)
      requires Parsed(sentences)
      modifies this
      ensures triples == old(triples) + Extracted(Examined(sentences, maxSentences), article).0
      ensures crashed == Extracted(Examined(sentences, maxSentences), article).1
    {
      var examined := Examined(sentences, maxSentences);
      assert Parsed(examined);
      crashed := false;
      for i := 0 to |examined|
        invariant Parsed(examined[..i])
        invariant triples == old(triples) + Extracted(examined[..i], article).0
        invariant crashed == Extracted(examined[..i], article).1
        invariant !crashed
      {
        ExtractedStep(examined, i, article);
        if examined[i].Some? {
          crashed := ScanSentence(examined[i].value, article);
          if crashed {
            CrashStopsExtraction(examined, i + 1, article);
            return;
          }
        }
      }
      assert examined[..|examined|] == examined;
    }
  }
}
