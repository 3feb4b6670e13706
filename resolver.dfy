/**
 * The noun-phrase resolver of the Wikipedia extractor
 * (`WikipediaExtractor.get_full_class_name`): a token of a dependency parse
 * becomes a list of class names, the first for the token itself and one or
 * more for each `conj` child.
 *
 * The parse is an input: a sequence of tokens, each with its text, part of
 * speech, dependency label, the indices of its children and of its left
 * children, and its depth in the dependency tree.
 */
module Resolver {
  import opened Wrappers
  import opened PyStr

  datatype Token = Token(
    text: string,
    pos: string,
    dep: string,
    children: seq<nat>,
    lefts: seq<nat>,
    depth: nat)

  type Doc = seq<Token>

  /**
   * The parse is a tree: child indices are in range and one level deeper
   * than their head, no token is deeper than the sentence is long, and the
   * left children are tokens of the sentence.
   */
  ghost predicate WellFormed(doc: Doc)
  {
    (forall i | 0 <= i < |doc| :: doc[i].depth < |doc|) &&
    (forall i, k | 0 <= i < |doc| && 0 <= k < |doc[i].children| ::
       doc[i].children[k] < |doc| && doc[doc[i].children[k]].depth == doc[i].depth + 1) &&
    (forall i, k | 0 <= i < |doc| && 0 <= k < |doc[i].lefts| :: doc[i].lefts[k] < |doc|)
  }

  /** The token texts of the sentence, in order. */
  function Texts(doc: Doc): (ts: seq<string>)
    ensures |ts| == |doc|
  {
    seq(|doc|, i requires 0 <= i < |doc| => doc[i].text)
  }

  /** The texts of the left children of token `i`, in order. */
  function LeftTexts(doc: Doc, i: nat): (ts: seq<string>)
    requires WellFormed(doc) && i < |doc|
    ensures |ts| == |doc[i].lefts|
  {
    seq(|doc[i].lefts|, k requires 0 <= k < |doc[i].lefts| => doc[doc[i].lefts[k]].text)
  }

  // ---------------------------------------------------------------------
  // Unique link match
  // ---------------------------------------------------------------------

  /** The anchors that contain `name` as a substring, in sentence order. */
  function Matches(name: string, links: seq<string>): (m: seq<string>)
    ensures |m| <= |links|
  {
    if links == [] then []
    else
      var last := links[|links| - 1];
      Matches(name, links[..|links| - 1]) + (if Contains(last, name) then [last] else [])
  }

  /** The link accepted for `name`: the only anchor containing it, if exactly one does. */
  function UniqueLink(name: string, links: seq<string>): (r: Option<string>)
    ensures r.Some? ==> r.value in links && Contains(r.value, name)
  {
    var m := Matches(name, links);
    MatchesMember(name, links);
    if |m| == 1 then Some(m[0]) else None
  }

  lemma {:induction false} MatchesMember(name: string, links: seq<string>)
    ensures forall x :: x in Matches(name, links) <==> x in links && Contains(x, name)
  {
    if links != [] {
      var prefix := links[..|links| - 1];
      MatchesMember(name, prefix);
      assert links == prefix + [links[|links| - 1]];
    }
  }

  lemma {:induction false} NoMatches(name: string, links: seq<string>)
    requires forall j :: 0 <= j < |links| ==> !Contains(links[j], name)
    ensures Matches(name, links) == []
  {
    if links != [] {
      NoMatches(name, links[..|links| - 1]);
    }
  }

  lemma {:induction false} TwoMatches(name: string, links: seq<string>, j: nat, k: nat)
    requires j < k < |links|
    requires Contains(links[j], name) && Contains(links[k], name)
    ensures |Matches(name, links)| >= 2
  {
    var prefix := links[..|links| - 1];
    if k == |links| - 1 {
      MatchesMember(name, prefix);
      assert links[j] == prefix[j];
      assert links[j] in Matches(name, prefix);
    } else {
      TwoMatches(name, prefix, j, k);
    }
  }

  lemma {:induction false} OneMatch(name: string, links: seq<string>, k: nat)
    requires k < |links| && Contains(links[k], name)
    requires forall j :: 0 <= j < |links| && j != k ==> !Contains(links[j], name)
    ensures Matches(name, links) == [links[k]]
  {
    var prefix := links[..|links| - 1];
    if k == |links| - 1 {
      NoMatches(name, prefix);
    } else {
      OneMatch(name, prefix, k);
    }
  }

  /**
   * The link lookup accepts an anchor exactly when it is the only one that
   * contains the name; two containing anchors leave no link at all.
   */
  lemma UniqueLinkExactlyOne(name: string, links: seq<string>, k: nat)
    requires k < |links| && Contains(links[k], name)
    ensures UniqueLink(name, links) == Some(links[k]) <==>
              forall j :: 0 <= j < |links| && j != k ==> !Contains(links[j], name)
  {
    if forall j :: 0 <= j < |links| && j != k ==> !Contains(links[j], name) {
      OneMatch(name, links, k);
    } else {
      var j :| 0 <= j < |links| && j != k && Contains(links[j], name);
      if j < k { TwoMatches(name, links, j, k); } else { TwoMatches(name, links, k, j); }
    }
  }

  /** No anchor containing the name means no link. */
  lemma UniqueLinkNone(name: string, links: seq<string>)
    requires forall j :: 0 <= j < |links| ==> !Contains(links[j], name)
    ensures UniqueLink(name, links) == None
  {
    NoMatches(name, links);
  }

  /**
   * The counting loop over the anchors: the first containing anchor is
   * taken, a second one resets the choice to None.
   */
  method MatchUniqueLink(name: string, links: seq<string>) returns (link: Option<string>)
    ensures link == UniqueLink(name, links)
  {
    link := None;
    var matchCtr := 0;
    for k := 0 to |links|
      invariant matchCtr == |Matches(name, links[..k])|
      invariant link == (if matchCtr == 1 then Some(Matches(name, links[..k])[0]) else None)
    {
      assert links[..k + 1][..k] == links[..k];
      if Contains(links[k], name) {
        if matchCtr == 0 {
          link := Some(links[k]);
        } else {
          link := None;
        }
        matchCtr := matchCtr + 1;
      }
    }
    assert links[..|links|] == links;
  }

  // ---------------------------------------------------------------------
  // Which link, if any, names the token
  // ---------------------------------------------------------------------

  /** Some child of token `i` carries dependency label `d`. */
  predicate HasChildDep(doc: Doc, i: nat, d: string)
    requires WellFormed(doc) && i < |doc|
  {
    exists k :: 0 <= k < |doc[i].children| && doc[doc[i].children[k]].dep == d
  }

  /**
   * The name extended leftwards by the nearest left child, tried when some
   * child is labelled "compund" (sic) or "amod".
   */
  function ExtendedName(doc: Doc, i: nat): (r: Option<string>)
    requires WellFormed(doc) && i < |doc|
  {
    var t := doc[i];
    if (HasChildDep(doc, i, "compund") || HasChildDep(doc, i, "amod")) && |t.lefts| > 0
    then Some(doc[t.lefts[|t.lefts| - 1]].text + " " + t.text)
    else None
  }

  /**
   * The extension is attempted only with an "amod" (or the misspelt
   * "compund") child and a left child, and it always uses the last left child.
   */
  lemma ExtendedNameUsesNearestLeft(doc: Doc, i: nat)
    requires WellFormed(doc) && i < |doc|
    ensures ExtendedName(doc, i).Some? <==>
              |doc[i].lefts| > 0 &&
              exists k :: 0 <= k < |doc[i].children| &&
                var c := doc[i].children[k]; doc[c].dep == "amod" || doc[c].dep == "compund"
    ensures ExtendedName(doc, i).Some? ==>
              var last := doc[i].lefts[|doc[i].lefts| - 1];
              ExtendedName(doc, i).value == doc[last].text + " " + doc[i].text
  {
  }

  /** A token whose modifiers are only "compound" children is never extended. */
  lemma CompoundDoesNotExtend(doc: Doc, i: nat)
    requires WellFormed(doc) && i < |doc|
    requires forall k :: 0 <= k < |doc[i].children| ==> doc[doc[i].children[k]].dep == "compound"
    ensures ExtendedName(doc, i) == None
  {
  }

  /** The link chosen for token `i`: first for the extended name, then for the bare text. */
  function LinkFor(doc: Doc, i: nat, links: seq<string>): (r: Option<string>)
    requires WellFormed(doc) && i < |doc|
    ensures r.Some? ==> r.value in links
  {
    var extended := ExtendedName(doc, i);
    var first := if extended.Some? then UniqueLink(extended.value, links) else None;
    if first.Some? then first
    else if Count(Texts(doc), doc[i].text) < 2 then UniqueLink(doc[i].text, links)
    else None
  }

  /**
   * The bare text is looked up only for a text that occurs fewer than twice
   * in the sentence; otherwise only the extended name can find a link.
   */
  lemma RepeatedTextNotLookedUp(doc: Doc, i: nat, links: seq<string>)
    requires WellFormed(doc) && i < |doc|
    requires Count(Texts(doc), doc[i].text) >= 2
    ensures LinkFor(doc, i, links) ==
              (if ExtendedName(doc, i).Some? then UniqueLink(ExtendedName(doc, i).value, links) else None)
  {
  }

  /** A link found for the token contains the extended name or the bare text. */
  lemma LinkContainsName(doc: Doc, i: nat, links: seq<string>)
    requires WellFormed(doc) && i < |doc|
    requires LinkFor(doc, i, links).Some?
    ensures var l := LinkFor(doc, i, links).value;
            (ExtendedName(doc, i).Some? && Contains(l, ExtendedName(doc, i).value)) ||
            (Count(Texts(doc), doc[i].text) < 2 && Contains(l, doc[i].text))
  {
  }

  // ---------------------------------------------------------------------
  // The noun text with its modifiers
  // ---------------------------------------------------------------------

  /** A "compound" or "amod" child that stands to the left of the token. */
  predicate IsModifier(doc: Doc, i: nat, c: nat)
    requires WellFormed(doc) && i < |doc| && c < |doc|
  {
    (doc[c].dep == "compound" || doc[c].dep == "amod") && c in doc[i].lefts
  }

  /** The texts of the modifiers among the first `k` children, in child order. */
  function Modifiers(doc: Doc, i: nat, k: nat): (ms: seq<string>)
    requires WellFormed(doc) && i < |doc| && k <= |doc[i].children|
    ensures forall x :: x in ms ==> x in LeftTexts(doc, i)
  {
    if k == 0 then []
    else
      var c := doc[i].children[k - 1];
      var prev := Modifiers(doc, i, k - 1);
      if IsModifier(doc, i, c) then
        var m := ListIndex(doc[i].lefts, c).value;
        assert LeftTexts(doc, i)[m] == doc[c].text;
        prev + [doc[c].text]
      else prev
  }

  /** Some of the first `k` children has the text "of". */
  predicate HasOfChild(doc: Doc, i: nat, k: nat)
    requires WellFormed(doc) && i < |doc| && k <= |doc[i].children|
  {
    exists j :: 0 <= j < k && doc[doc[i].children[j]].text == "of"
  }

  /** Each modifier in turn is put in front of the name, with a space. */
  function Prefixed(mods: seq<string>, base: string): string
  {
    if mods == [] then base
    else mods[|mods| - 1] + " " + Prefixed(mods[..|mods| - 1], base)
  }

  /** A one-character text after a hyphen (`v[:-1] == '-'`) is glued without a space. */
  predicate Hyphen(v: string)
  {
    Slice(v, 0, -1) == "-"
  }

  /** Each text in turn is put in front of the name, glued or with a space. */
  function Glue(vs: seq<string>, base: string): string
  {
    if vs == [] then base
    else
      var v := vs[|vs| - 1];
      (if Hyphen(v) then v else v + " ") + Glue(vs[..|vs| - 1], base)
  }

  /** The position of `x` among `keys`, the sort key of the modifiers. */
  function Key(keys: seq<string>, x: string): nat
  {
    match ListIndex(keys, x)
    case Some(k) => k
    case None => |keys|
  }

  /** `sorted` in descending key order: left to right, each element after those with a key at least its own. */
  function Insert(x: string, s: seq<string>, keys: seq<string>): (r: seq<string>)
    ensures multiset(r) == multiset(s) + multiset{x}
  {
    if s == [] then [x]
    else if Key(keys, s[0]) >= Key(keys, x) then
      assert s == [s[0]] + s[1..];
      [s[0]] + Insert(x, s[1..], keys)
    else [x] + s
  }

  /** Python's `sorted(xs, key=..., reverse=True)` as insertion of each element in turn. */
  function SortDescending(xs: seq<string>, keys: seq<string>): (r: seq<string>)
    ensures multiset(r) == multiset(xs)
  {
    if xs == [] then []
    else
      assert xs == xs[..|xs| - 1] + [xs[|xs| - 1]];
      Insert(xs[|xs| - 1], SortDescending(xs[..|xs| - 1], keys), keys)
  }

  predicate Descending(s: seq<string>, keys: seq<string>)
  {
    forall j, k :: 0 <= j < k < |s| ==> Key(keys, s[j]) >= Key(keys, s[k])
  }

  /** An element with a key at least every key of a descending list can go in front of it. */
  lemma ConsDescending(h: string, r: seq<string>, keys: seq<string>)
    requires Descending(r, keys)
    requires forall k :: 0 <= k < |r| ==> Key(keys, h) >= Key(keys, r[k])
    ensures Descending([h] + r, keys)
  {
    var t := [h] + r;
    forall j, k | 0 <= j < k < |t| ensures Key(keys, t[j]) >= Key(keys, t[k]) {
      assert t[k] == r[k - 1];
      if j > 0 {
        assert t[j] == r[j - 1];
      }
    }
  }

  lemma {:induction false} InsertDescending(x: string, s: seq<string>, keys: seq<string>)
    requires Descending(s, keys)
    ensures Descending(Insert(x, s, keys), keys)
  {
    if s == [] {
    } else if Key(keys, s[0]) >= Key(keys, x) {
      var tail := s[1..];
      assert Descending(tail, keys) by {
        forall j, k | 0 <= j < k < |tail| ensures Key(keys, tail[j]) >= Key(keys, tail[k]) {
          assert tail[j] == s[j + 1] && tail[k] == s[k + 1];
        }
      }
      InsertDescending(x, tail, keys);
      var r := Insert(x, tail, keys);
      assert multiset(r) == multiset(tail) + multiset{x};
      forall k | 0 <= k < |r| ensures Key(keys, s[0]) >= Key(keys, r[k]) {
        var y := r[k];
        assert y in multiset(r);
        if y != x {
          assert y in multiset(tail);
          var m :| 0 <= m < |tail| && tail[m] == y;
          assert s[m + 1] == y;
        }
      }
      ConsDescending(s[0], r, keys);
    } else {
      ConsDescending(x, s, keys);
    }
  }

  /** The sort orders the modifiers by descending left position and only reorders them. */
  lemma {:induction false} SortDescendingSorted(xs: seq<string>, keys: seq<string>)
    ensures Descending(SortDescending(xs, keys), keys)
    ensures multiset(SortDescending(xs, keys)) == multiset(xs)
  {
    if xs != [] {
      SortDescendingSorted(xs[..|xs| - 1], keys);
      InsertDescending(xs[|xs| - 1], SortDescending(xs[..|xs| - 1], keys), keys);
    }
  }

  /** Equal keys mean equal texts, so the order of equal keys cannot matter. */
  lemma KeyInjective(keys: seq<string>, x: string, y: string)
    requires x in keys && y in keys && Key(keys, x) == Key(keys, y)
    ensures x == y
  {
  }

  /**
   * The name of an unlinked noun: its text with its left modifiers in front;
   * with two or more modifiers they are re-ordered by position and the
   * leftmost one is dropped (`context[:-1]`).
   */
  function NounName(doc: Doc, i: nat): string
    requires WellFormed(doc) && i < |doc|
  {
    var mods := Modifiers(doc, i, |doc[i].children|);
    if |mods| > 1 then
      var sorted := SortDescending(mods, LeftTexts(doc, i));
      Glue(sorted[..|sorted| - 1], doc[i].text)
    else Prefixed(mods, doc[i].text)
  }

  /** A single modifier is put in front of the text with one space. */
  lemma NounNameOneModifier(doc: Doc, i: nat)
    requires WellFormed(doc) && i < |doc|
    requires |Modifiers(doc, i, |doc[i].children|)| == 1
    ensures NounName(doc, i) == Modifiers(doc, i, |doc[i].children|)[0] + " " + doc[i].text
  {
    var mods := Modifiers(doc, i, |doc[i].children|);
    assert mods[..0] == [];
    assert Prefixed(mods, doc[i].text) == mods[0] + " " + Prefixed([], doc[i].text);
  }

  /** Without modifiers the noun keeps its own text. */
  lemma NounNameNoModifier(doc: Doc, i: nat)
    requires WellFormed(doc) && i < |doc|
    requires Modifiers(doc, i, |doc[i].children|) == []
    ensures NounName(doc, i) == doc[i].text
  {
  }

  // ---------------------------------------------------------------------
  // The full resolution
  // ---------------------------------------------------------------------

  /**
   * The primary name of token `i`: the title of its link, the noun name, or
   * None where the code returns `['']` (an unlinked non-noun, or a noun
   * with an "of" child).
   */
  function PrimaryName(doc: Doc, i: nat, links: seq<string>, titles: seq<string>): Option<string>
    requires WellFormed(doc) && i < |doc| && |titles| == |links|
  {
    match LinkFor(doc, i, links)
    case Some(l) => Some(titles[ListIndex(links, l).value])
    case None =>
      if doc[i].pos != "NOUN" || HasOfChild(doc, i, |doc[i].children|) then None
      else Some(NounName(doc, i))
  }

  /** The names of token `i`: its primary name, then those of its `conj` children. */
  function FullClassName(doc: Doc, i: nat, links: seq<string>, titles: seq<string>): (names: seq<string>)
    requires WellFormed(doc) && i < |doc| && |titles| == |links|
    ensures |names| >= 1
    decreases |doc| - doc[i].depth, 1, 0
  {
    match PrimaryName(doc, i, links, titles)
    case None => [""]
    case Some(name) => [name] + ConjNames(doc, i, |doc[i].children|, links, titles)
  }

  /** The names contributed by the `conj` children among the first `k` children. */
  function ConjNames(doc: Doc, i: nat, k: nat, links: seq<string>, titles: seq<string>): seq<string>
    requires WellFormed(doc) && i < |doc| && |titles| == |links| && k <= |doc[i].children|
    decreases |doc| - doc[i].depth, 0, k
  {
    if k == 0 then []
    else
      var c := doc[i].children[k - 1];
      ConjNames(doc, i, k - 1, links, titles) +
        (if doc[c].dep == "conj" then FullClassName(doc, c, links, titles) else [])
  }

  /**
   * A linked token is named by the title at the first index of its anchor;
   * the `conj` names follow.
   */
  lemma LinkedTokenTakesTitle(doc: Doc, i: nat, links: seq<string>, titles: seq<string>)
    requires WellFormed(doc) && i < |doc| && |titles| == |links|
    requires LinkFor(doc, i, links).Some?
    ensures var l := LinkFor(doc, i, links).value;
            exists k :: 0 <= k < |links| && links[k] == l &&
              (forall j :: 0 <= j < k ==> links[j] != l) &&
              FullClassName(doc, i, links, titles) ==
                [titles[k]] + ConjNames(doc, i, |doc[i].children|, links, titles)
  {
    var l := LinkFor(doc, i, links).value;
    var k := ListIndex(links, l).value;
    assert links[k] == l;
  }

  /** An unlinked token that is not a noun, or has an "of" child, resolves to `['']`. */
  lemma UnlinkedNonNounIsEmpty(doc: Doc, i: nat, links: seq<string>, titles: seq<string>)
    requires WellFormed(doc) && i < |doc| && |titles| == |links|
    requires LinkFor(doc, i, links).None?
    requires doc[i].pos != "NOUN" || HasOfChild(doc, i, |doc[i].children|)
    ensures FullClassName(doc, i, links, titles) == [""]
  {
  }

  /** An unlinked noun without an "of" child is named by its text and modifiers. */
  lemma UnlinkedNounNamed(doc: Doc, i: nat, links: seq<string>, titles: seq<string>)
    requires WellFormed(doc) && i < |doc| && |titles| == |links|
    requires LinkFor(doc, i, links).None? && doc[i].pos == "NOUN"
    requires !HasOfChild(doc, i, |doc[i].children|)
    ensures FullClassName(doc, i, links, titles)[0] == NounName(doc, i)
  {
  }

  /** Every name of a `conj` child follows the primary name, in child order. */
  lemma {:induction false} ConjNamesCollect(doc: Doc, i: nat, k: nat, links: seq<string>, titles: seq<string>, j: nat)
    requires WellFormed(doc) && i < |doc| && |titles| == |links| && j < k <= |doc[i].children|
    requires doc[doc[i].children[j]].dep == "conj"
    ensures var c := doc[i].children[j];
            FullClassName(doc, c, links, titles)[0] in ConjNames(doc, i, k, links, titles)
    decreases k
  {
    var last := doc[i].children[k - 1];
    var prev := ConjNames(doc, i, k - 1, links, titles);
    var added := if doc[last].dep == "conj" then FullClassName(doc, last, links, titles) else [];
    assert ConjNames(doc, i, k, links, titles) == prev + added;
    if j < k - 1 {
      ConjNamesCollect(doc, i, k - 1, links, titles, j);
    } else {
      assert added[0] in prev + added;
    }
  }

  /**
   * The walk over the children of an unlinked noun: an "of" child stops it,
   * each left "compound" or "amod" child is put in front of the name and
   * remembered in `context`.
   */
  method CollectModifiers(doc: Doc, i: nat) returns (hasOf: bool, context: seq<string>, className: string)
    requires WellFormed(doc) && i < |doc|
    ensures hasOf == HasOfChild(doc, i, |doc[i].children|)
    ensures !hasOf ==> context == Modifiers(doc, i, |doc[i].children|)
    ensures !hasOf ==> className == Prefixed(context, doc[i].text)
  {
    var value := doc[i];
    className := value.text;
    context := [];
    var k := 0;
    while k < |value.children|
      invariant k <= |value.children|
      invariant !HasOfChild(doc, i, k)
      invariant context == Modifiers(doc, i, k)
      invariant className == Prefixed(context, value.text)
    {
      var c := value.children[k];
      if doc[c].text == "of" {
        return true, context, className;
      }
      if (doc[c].dep == "compound" || doc[c].dep == "amod") && c in value.lefts {
        className := doc[c].text + " " + className;
        context := context + [doc[c].text];
        assert context[..|context| - 1] == Modifiers(doc, i, k);
      }
      k := k + 1;
    }
    hasOf := false;
  }

  /** The rebuild after sorting: every modifier but the last sorted one, glued in front of the text. */
  method GlueSorted(context: seq<string>, text: string) returns (className: string)
    requires |context| > 0
    ensures className == Glue(context[..|context| - 1], text)
  {
    className := text;
    for j := 0 to |context| - 1
      invariant className == Glue(context[..j], text)
    {
      assert context[..j + 1][..j] == context[..j];
      var v := context[j];
      if Slice(v, 0, -1) == "-" {
        className := v + className;
      } else {
        className := v + " " + className;
      }
    }
  }

  /** Lines 146-169: the extended name is looked up first, then the bare text if it is not repeated. */
  method FindLink(doc: Doc, i: nat, links: seq<string>) returns (link: Option<string>)
    requires WellFormed(doc) && i < |doc|
    ensures link == LinkFor(doc, i, links)
  {
    link := None;
    var extended := ExtendedName(doc, i);
    if extended.Some? {
      link := MatchUniqueLink(extended.value, links);
    }
    if link.None? {
      var className := doc[i].text;
      if Count(Texts(doc), className) < 2 {
        link := MatchUniqueLink(className, links);
      }
    }
  }

  /** Lines 170-189 for an unlinked noun: nothing if it has an "of" child, else its text with the modifiers. */
  method NameNoun(doc: Doc, i: nat) returns (name: Option<string>)
    requires WellFormed(doc) && i < |doc|
    ensures name.None? <==> HasOfChild(doc, i, |doc[i].children|)
    ensures name.Some? ==> name.value == NounName(doc, i)
  {
    var hasOf, context, className := CollectModifiers(doc, i);
    if hasOf {
      return None;
    }
    if |context| > 1 {
      context := SortDescending(context, LeftTexts(doc, i));
      className := GlueSorted(context, doc[i].text);
    }
    name := Some(className);
  }

  /**
   * The resolver as the code runs it: the link lookups, the name of an
   * unlinked noun, then the `conj` children.
   */
  method GetFullClassName(doc: Doc, i: nat, links: seq<string>, titles: seq<string>)
    returns (names: seq<string>)
    requires WellFormed(doc) && i < |doc| && |titles| == |links|
    ensures names == FullClassName(doc, i, links, titles)
    decreases |doc| - doc[i].depth, 1
  {
    var value := doc[i];
    var className;
    var link := FindLink(doc, i, links);
    if link.Some? {
      className := titles[ListIndex(links, link.value).value];
    } else {
      if value.pos != "NOUN" {
        return [""];
      }
      var noun := NameNoun(doc, i);
      if noun.None? {
        return [""];
      }
      className := noun.value;
    }
    assert PrimaryName(doc, i, links, titles) == Some(className);
    var others := CollectConjNames(doc, i, links, titles);
    names := [className] + others;
  }

  /** Lines 192-197: the names of the `conj` children, in child order. */
  method CollectConjNames(doc: Doc, i: nat, links: seq<string>, titles: seq<string>)
    returns (others: seq<string>)
    requires WellFormed(doc) && i < |doc| && |titles| == |links|
    ensures others == ConjNames(doc, i, |doc[i].children|, links, titles)
    decreases |doc| - doc[i].depth, 0
  {
    var children := doc[i].children;
    others := [];
    for k := 0 to |children|
      invariant others == ConjNames(doc, i, k, links, titles)
    {
      var c := children[k];
      if doc[c].dep == "conj" {
        var sub := GetFullClassName(doc, c, links, titles);
        others := others + sub;
      }
    }
  }
}
