/**
 * The relation and endpoint-type classifier of triples_parse_and_verify.py:
 * parsing of raw triple lines, the filter that drops lines, endpoint types
 * from a named-entity judgement, the fixed relation ontology, the registry of
 * confirmed class names, the reciprocal aggregation correction and the
 * classified-line writer.
 *
 * The named-entity judgement (spaCy's ORG/GPE entities of a string) is the
 * parameter `isEntity`.
 */
module Classifier {
  import opened Wrappers
  import opened PyStr

  datatype EndpointType = Class | Object | AttributeName

  datatype RelationType = Inheritance | Composition | Aggregation | Association | Attributes

  /** The spelling of an endpoint type in the classified output. */
  function EndpointTypeName(t: EndpointType): string
  {
    match t
    case Class => "class"
    case Object => "object"
    case AttributeName => "attribute name"
  }

  /** The spelling of a relation type in the classified output. */
  function RelationTypeName(t: RelationType): string
  {
    match t
    case Inheritance => "inheritance"
    case Composition => "composition"
    case Aggregation => "aggregation"
    case Association => "association"
    case Attributes => "attributes"
  }

  /** A triple as read from the corpus: subject, relation phrase, object. */
  datatype RawTriple = RawTriple(sub: string, rel: string, obj: string)

  /** A classified triple, in the field order of the Python 6-tuple. */
  datatype Triple = Triple(sub: string, rel: string, obj: string,
                           relType: RelationType, subType: EndpointType, objType: EndpointType)

  // ---------------------------------------------------------------------------
  // Line filter and parsing
  // ---------------------------------------------------------------------------

  /** `has_numbers`: some character of `s` is a digit. */
  function HasNumbers(s: string): (r: bool)
    ensures r <==> exists i :: 0 <= i < |s| && IsDigit(s[i])
  {
    if s == [] then false
    else
      assert forall i :: 0 < i < |s| ==> s[i] == s[1..][i - 1];
      IsDigit(s[0]) || HasNumbers(s[1..])
  }

  const FilterTerms: seq<string> := ["list of", "wikidata property", "wikidata qualifier"]

  /** Line 64: the four characters `\xa0` become a space, then the line is lower-cased. */
  function Normalize(line: string): string
  {
    Lower(Replace(line, "\\xa0", " "))
  }

  /** Lines 66-68: the normalised line mentions a filter term or holds a digit. */
  predicate Dropped(norm: string)
  {
    (exists term | term in FilterTerms :: Contains(norm, term)) || HasNumbers(norm)
  }

  /**
   * Lines 64-78: the raw triple a corpus line yields, or None when the line is
   * skipped: filtered, or with a `[2:-3]` middle that is not three fields.
   */
  function ParseRawLine(line: string): (r: Option<RawTriple>)
    ensures Dropped(Normalize(line)) ==> r == None
    ensures r.None? <==> Dropped(Normalize(line)) || |Split(Slice(Normalize(line), 2, -3), ", ")| != 3
  {
    var norm := Normalize(line);
    if Dropped(norm) then None
    else
      var fields := Split(Slice(norm, 2, -3), ", ");
      if |fields| != 3 then None
      else Some(RawTriple(
        Replace(Slice(fields[0], 0, -1), "\"", "'"),
        Slice(fields[1], 1, -1),
        Replace(Slice(fields[2], 1, |fields[2]|), "\"", "'")))
  }

  // ---------------------------------------------------------------------------
  // The corpus line format and its round trip
  // ---------------------------------------------------------------------------

  /**
   * A character that Python prints unescaped between single quotes, that
   * lower-casing leaves alone and that is not a digit.
   */
  predicate PlainChar(c: char)
  {
    ' ' <= c <= '~' && !IsUpper(c) && !IsDigit(c) && c != '\'' && c != '"' && c != '\\'
  }

  /** A field that a corpus line carries through the parser unchanged. */
  predicate PlainField(s: string)
  {
    (forall c :: c in s ==> PlainChar(c)) && !Contains(s, ", ")
    && forall term | term in FilterTerms :: !Contains(s, term)
  }

  /** A corpus line as the extractors save it: Python's `str` of the 3-tuple and a newline. */
  function CorpusLine(t: RawTriple): string
  {
    "('" + t.sub + "', '" + t.rel + "', '" + t.obj + "')\n"
  }

  /** A literal whose first character does not occur in `lit` cannot hold `sub`. */
  lemma LiteralFree(lit: string, sub: string)
    requires sub != "" && sub[0] !in lit
    ensures !Contains(lit, sub)
  {
    NotContainsByChar(lit, sub, sub[0]);
  }

  /** A character foreign to `sub` between two parts free of `sub` keeps the whole free of it. */
  lemma NotContainsAround(a: string, q: char, b: string, sub: string)
    requires q !in sub && !Contains(a, sub) && !Contains(b, sub)
    ensures !Contains(a + [q] + b, sub)
  {
    assert sub != "" by {
      assert StartsWith(a, "");
    }
    NotContainsByChar([q], sub, sub[0]);
    NotContainsConcat(a, [q], sub);
    NotContainsConcat(a + [q], b, sub);
  }

  /** The corpus line laid out as its literal pieces around the three fields. */
  lemma CorpusLineShape(t: RawTriple)
    ensures CorpusLine(t) == "(" + "'" + t.sub + "'" + ", " + "'" + t.rel + "'" + ", " + "'" + t.obj + "'" + ")\n"
    ensures CorpusLine(t) == "('" + CorpusMiddle(t) + "')\n"
  {
  }

  /** What the parser keeps of a corpus line after slicing off `('` and `')\n`. */
  function CorpusMiddle(t: RawTriple): string
  {
    t.sub + "', '" + t.rel + "', '" + t.obj
  }

  /**
   * A substring that holds no quote and starts with none of the characters of
   * the literal pieces occurs in the corpus line only if it occurs in a field.
   */
  lemma CorpusLineFree(t: RawTriple, sub: string)
    requires sub != "" && '\'' !in sub && sub[0] !in "(, )\n"
    requires !Contains(t.sub, sub) && !Contains(t.rel, sub) && !Contains(t.obj, sub)
    ensures !Contains(CorpusLine(t), sub)
  {
    LiteralFree("(", sub);
    LiteralFree(", ", sub);
    LiteralFree(")\n", sub);
    var q := '\'';
    var l1 := "(" + [q] + t.sub;
    var l2 := l1 + [q] + ", ";
    var l3 := l2 + [q] + t.rel;
    var l4 := l3 + [q] + ", ";
    var l5 := l4 + [q] + t.obj;
    var l6 := l5 + [q] + ")\n";
    NotContainsAround("(", q, t.sub, sub);
    NotContainsAround(l1, q, ", ", sub);
    NotContainsAround(l2, q, t.rel, sub);
    NotContainsAround(l3, q, ", ", sub);
    NotContainsAround(l4, q, t.obj, sub);
    NotContainsAround(l5, q, ")\n", sub);
    CorpusLineShape(t);
  }

  /** The corpus line of plain fields holds no upper-case letter, no digit and no backslash. */
  lemma CorpusLineChars(t: RawTriple)
    requires PlainField(t.sub) && PlainField(t.rel) && PlainField(t.obj)
    ensures forall c :: c in CorpusLine(t) ==> !IsUpper(c) && !IsDigit(c) && c != '\\'
  {
    CorpusLineShape(t);
  }

  /** The corpus line of plain fields is unchanged by the replacement and lower-casing. */
  lemma CorpusLineNormal(t: RawTriple)
    requires PlainField(t.sub) && PlainField(t.rel) && PlainField(t.obj)
    ensures Normalize(CorpusLine(t)) == CorpusLine(t)
  {
    var line := CorpusLine(t);
    CorpusLineChars(t);
    NotContainsByChar(line, "\\xa0", '\\');
    ReplaceAbsent(line, "\\xa0", " ");
    LowerNoUpper(line);
  }

  /** The corpus line of plain fields mentions no filter term. */
  lemma CorpusLineNoTerms(t: RawTriple)
    requires PlainField(t.sub) && PlainField(t.rel) && PlainField(t.obj)
    ensures forall term | term in FilterTerms :: !Contains(CorpusLine(t), term)
  {
    CorpusLineFree(t, FilterTerms[0]);
    CorpusLineFree(t, FilterTerms[1]);
    CorpusLineFree(t, FilterTerms[2]);
  }

  /** The corpus line of plain fields is already normal and is not dropped. */
  lemma CorpusLineKept(t: RawTriple)
    requires PlainField(t.sub) && PlainField(t.rel) && PlainField(t.obj)
    ensures Normalize(CorpusLine(t)) == CorpusLine(t)
    ensures !Dropped(CorpusLine(t))
  {
    var line := CorpusLine(t);
    CorpusLineNormal(t);
    CorpusLineChars(t);
    assert !HasNumbers(line) by {
      forall i | 0 <= i < |line| ensures !IsDigit(line[i]) {
        assert line[i] in line;
      }
    }
    CorpusLineNoTerms(t);
  }

  /** The fields the parser cuts out of the three pieces of the middle. */
  lemma CorpusFieldSlices(s: string, r: string, o: string)
    ensures Slice(s + "'", 0, -1) == s
    ensures Slice("'" + r + "'", 1, -1) == r
    ensures Slice("'" + o, 1, |"'" + o|) == o
  {
    assert (s + "'")[0..|s|] == s;
    assert ("'" + r + "'")[1..|r| + 1] == r;
    assert ("'" + o)[1..|o| + 1] == o;
  }

  /** The middle of a corpus line splits on ", " into its three quoted fields. */
  lemma CorpusMiddleSplit(s: string, r: string, o: string)
    requires !Contains(s, ", ") && !Contains(r, ", ") && !Contains(o, ", ")
    ensures Split(CorpusMiddle(RawTriple(s, r, o)), ", ") == [s + "'", "'" + r + "'", "'" + o]
  {
    var sep, q := ", ", "'";
    LiteralFree(q, sep);
    NotContainsConcat(s, q, sep);
    NotContainsConcat(q, r, sep);
    NotContainsConcat(q + r, q, sep);
    NotContainsConcat(q, o, sep);
    SplitThree(s + q, q + r + q, q + o, sep);
    CorpusMiddleShape(s, r, o);
  }

  lemma CorpusMiddleShape(s: string, r: string, o: string)
    ensures CorpusMiddle(RawTriple(s, r, o)) == (s + "'") + ", " + ("'" + r + "'") + ", " + ("'" + o)
  {
  }

  /** Parsing the corpus line of a triple with plain fields gives the triple back. */
  lemma CorpusLineRoundTrip(t: RawTriple)
    requires PlainField(t.sub) && PlainField(t.rel) && PlainField(t.obj)
    ensures ParseRawLine(CorpusLine(t)) == Some(t)
  {
    var line := CorpusLine(t);
    CorpusLineKept(t);
    var mid := CorpusMiddle(t);
    CorpusLineShape(t);
    assert Slice(line, 2, -3) == mid by {
      assert line[2..|line| - 3] == mid;
    }
    CorpusMiddleSplit(t.sub, t.rel, t.obj);
    CorpusFieldSlices(t.sub, t.rel, t.obj);
    NotContainsByChar(t.sub, "\"", '"');
    NotContainsByChar(t.obj, "\"", '"');
    ReplaceAbsent(t.sub, "\"", "'");
    ReplaceAbsent(t.obj, "\"", "'");
  }

  // ---------------------------------------------------------------------------
  // Relation ontology
  // ---------------------------------------------------------------------------

  /** The if/elif chain at lines 103-114. */
  function RelationTypeChain(rel: string): RelationType
  {
    if rel in ["made from material", "made up of"] then Composition
    else if rel in ["have", "include", "part of", "has parts", "made of", "is composed of", "consist of"] then Aggregation
    else if rel in ["is a", "instance of", "subclass of"] then Inheritance
    else if rel in ["properties for this type", "has characteristic", "has properties"] then Attributes
    else Association
  }

  /**
   * The conditional expression at lines 116-127, whose value the code keeps.
   * Its aggregation list is the chain's in another order, so the two agree on
   * every relation phrase.
   */
  function RelationTypeOf(rel: string): (r: RelationType)
    ensures r == RelationTypeChain(rel)
  {
    if rel in ["made from material", "made up of"] then Composition
    else if rel in ["have", "is composed of", "part of", "has parts", "made of", "include", "consist of"] then Aggregation
    else if rel in ["is a", "instance of", "subclass of"] then Inheritance
    else if rel in ["properties for this type", "has characteristic", "has properties"] then Attributes
    else Association
  }

  // ---------------------------------------------------------------------------
  // Endpoint types and the class registry
  // ---------------------------------------------------------------------------

  const TypeRelations: seq<string> := ["is a", "instance of", "part of"]
  const AttributeRelations: seq<string> := ["properties for this type", "has characteristic", "has properties"]

  /** One classified triple and the names its line adds to the registry. */
  datatype Classification = Classification(triple: Triple, registered: set<string>)

  /** Lines 83-129 for one raw triple. */
  function ClassifyRaw(t: RawTriple, isEntity: string -> bool): (c: Classification)
    ensures c.triple.sub == t.sub && c.triple.rel == t.rel && c.triple.obj == t.obj
    ensures c.triple.relType == RelationTypeOf(t.rel)
    ensures t.rel == "subclass of" ==>
      c.triple.subType == Class && c.triple.objType == Class && t.sub in c.registered && t.obj in c.registered
    ensures t.rel in TypeRelations && !isEntity(t.obj) ==> c.triple.objType == Class && t.obj in c.registered
    ensures t.rel in AttributeRelations ==> c.triple.objType == AttributeName
    ensures t.rel != "subclass of" ==> c.triple.subType == (if isEntity(t.sub) then Object else Class)
    ensures t.rel != "subclass of" && !(t.rel in TypeRelations && !isEntity(t.obj)) && t.rel !in AttributeRelations ==>
      c.triple.objType == (if isEntity(t.obj) then Object else Class)
    ensures forall x :: x in c.registered ==>
      (x == t.obj && t.rel in TypeRelations && !isEntity(t.obj))
      || (t.rel == "subclass of" && (x == t.sub || x == t.obj))
  {
    var subIsEntity := isEntity(t.sub);
    var objIsEntity := isEntity(t.obj);
    var objT0 := if objIsEntity then Object else Class;
    var subT0 := if subIsEntity then Object else Class;
    var typed := t.rel in TypeRelations && !objIsEntity;
    var objT1 := if typed then Class else objT0;
    var reg1: set<string> := if typed then {t.obj} else {};
    var subclass := t.rel in ["subclass of"];
    var objT2 := if subclass then Class else objT1;
    var subT2 := if subclass then Class else subT0;
    var reg2 := if subclass then reg1 + {t.obj, t.sub} else reg1;
    var objT3 := if t.rel in AttributeRelations then AttributeName else objT2;
    Classification(Triple(t.sub, t.rel, t.obj, RelationTypeOf(t.rel), subT2, objT3), reg2)
  }

  /** One line of a corpus file through lines 64-129. */
  function ClassifyLine(line: string, isEntity: string -> bool): Option<Classification>
  {
    match ParseRawLine(line)
    case None => None
    case Some(t) => Some(ClassifyRaw(t, isEntity))
  }

  /** The local pass of `process_triples_file`: the triples of the surviving lines, in file order. */
  function ClassifyLines(lines: seq<string>, isEntity: string -> bool): seq<Triple>
  {
    if lines == [] then []
    else
      ClassifyLines(lines[..|lines| - 1], isEntity) +
      match ClassifyLine(lines[|lines| - 1], isEntity)
      case None => []
      case Some(c) => [c.triple]
  }

  /** The names one line adds to the registry; none for a dropped line. */
  function Registrations(line: string, isEntity: string -> bool): set<string>
  {
    match ClassifyLine(line, isEntity)
    case None => {}
    case Some(c) => c.registered
  }

  /** The names the lines of a file add to the registry. */
  function RegisteredBy(lines: seq<string>, isEntity: string -> bool): set<string>
  {
    if lines == [] then {}
    else RegisteredBy(lines[..|lines| - 1], isEntity) + Registrations(lines[|lines| - 1], isEntity)
  }

  /**
   * A name the named-entity judgement calls an entity only enters the registry
   * through a `subclass of` line, because the other type relations register
   * their object only when it is not an entity. So the writer can only turn an
   * `object` endpoint into a `class` for names some `subclass of` line names.
   */
  lemma {:induction false} EntityRegisteredOnlyBySubclass(lines: seq<string>, isEntity: string -> bool, x: string)
    requires isEntity(x) && x in RegisteredBy(lines, isEntity)
    ensures exists i, c :: 0 <= i < |lines| && ClassifyLine(lines[i], isEntity) == Some(c)
              && c.triple.rel == "subclass of" && (c.triple.sub == x || c.triple.obj == x)
  {
    if lines != [] {
      var n := |lines| - 1;
      var init := lines[..n];
      var last := ClassifyLine(lines[n], isEntity);
      if last.Some? && x in last.value.registered {
        assert ClassifyLine(lines[n], isEntity) == Some(last.value);
      } else {
        EntityRegisteredOnlyBySubclass(init, isEntity, x);
        var i, c :| 0 <= i < |init| && ClassifyLine(init[i], isEntity) == Some(c)
                && c.triple.rel == "subclass of" && (c.triple.sub == x || c.triple.obj == x);
        assert lines[i] == init[i];
      }
    }
  }

  /**
   * The registry is global to the batch: every line's registrations are in
   * it, whether the line comes before or after the triple being promoted.
   */
  lemma {:induction false} RegistryCollectsEveryLine(lines: seq<string>, isEntity: string -> bool, j: int)
    requires 0 <= j < |lines|
    ensures Registrations(lines[j], isEntity) <= RegisteredBy(lines, isEntity)
  {
    var head := lines[..j + 1];
    assert head[..j] == lines[..j];
    assert head[j] == lines[j];
    RegisteredByGrows(lines, isEntity, j + 1);
  }

  /** The registry after a prefix of the file is part of the registry after the whole file. */
  lemma {:induction false} RegisteredByGrows(lines: seq<string>, isEntity: string -> bool, k: nat)
    requires k <= |lines|
    ensures RegisteredBy(lines[..k], isEntity) <= RegisteredBy(lines, isEntity)
    decreases |lines| - k
  {
    if k < |lines| {
      assert lines[..k + 1][..k] == lines[..k];
      RegisteredByGrows(lines, isEntity, k + 1);
    } else {
      assert lines[..k] == lines;
    }
  }

  // ---------------------------------------------------------------------------
  // Reciprocal aggregation correction
  // ---------------------------------------------------------------------------

  /** Some triple of the batch, possibly `t` itself, has the endpoints of `t` reversed. */
  predicate HasMirror(t: Triple, batch: seq<Triple>)
  {
    exists u | u in batch :: t.sub == u.obj && t.obj == u.sub
  }

  /** Lines 45-48 for one triple of the batch. */
  function Corrected(t: Triple, batch: seq<Triple>): Triple
  {
    if t.relType == Aggregation && HasMirror(t, batch) then t.(relType := Composition) else t
  }

  /** `reprocess_aggregation_relations` as a function of the whole batch. */
  function Reprocess(batch: seq<Triple>): (r: seq<Triple>)
    ensures |r| == |batch|
  {
    seq(|batch|, i requires 0 <= i < |batch| => Corrected(batch[i], batch))
  }

  /** `reprocess_aggregation_relations`: one pass that rebuilds the batch in order. */
  method ReprocessAggregationRelations(triples: seq<Triple>) returns (finalTriples: seq<Triple>)
    ensures finalTriples == Reprocess(triples)
  {
    finalTriples := [];
    for i := 0 to |triples|
      invariant |finalTriples| == i
      invariant forall k :: 0 <= k < i ==> finalTriples[k] == Corrected(triples[k], triples)
    {
      var triple := triples[i];
      if triple.relType == Aggregation {
        if HasMirror(triple, triples) {
          triple := triple.(relType := Composition);
        }
      }
      finalTriples := finalTriples + [triple];
    }
  }

  /**
   * The correction keeps length and order, changes only the relation type, and
   * changes it exactly for the aggregations that have a mirror in the batch,
   * always to composition.
   */
  lemma ReprocessChangesOnlyAggregation(batch: seq<Triple>, i: int)
    requires 0 <= i < |batch|
    ensures |Reprocess(batch)| == |batch|
    ensures Reprocess(batch)[i] == batch[i].(relType := Reprocess(batch)[i].relType)
    ensures Reprocess(batch)[i].relType != batch[i].relType <==>
      batch[i].relType == Aggregation && exists j :: 0 <= j < |batch| && batch[j].sub == batch[i].obj && batch[j].obj == batch[i].sub
    ensures Reprocess(batch)[i].relType != batch[i].relType ==> Reprocess(batch)[i].relType == Composition
  {
    var t := batch[i];
    if t.relType == Aggregation {
      if HasMirror(t, batch) {
        var u :| u in batch && t.sub == u.obj && t.obj == u.sub;
        var j :| 0 <= j < |batch| && batch[j] == u;
      }
    }
  }

  /** The correction keeps every endpoint, so a triple has a mirror in the corrected batch exactly when it has one in the batch. */
  lemma MirrorsKept(batch: seq<Triple>, t: Triple)
    ensures HasMirror(t, Reprocess(batch)) <==> HasMirror(t, batch)
  {
    var r := Reprocess(batch);
    if HasMirror(t, r) {
      var u :| u in r && t.sub == u.obj && t.obj == u.sub;
      var j :| 0 <= j < |r| && r[j] == u;
      assert batch[j] in batch;
    }
    if HasMirror(t, batch) {
      var u :| u in batch && t.sub == u.obj && t.obj == u.sub;
      var j :| 0 <= j < |batch| && batch[j] == u;
      assert r[j] in r;
    }
  }

  /** Applying the correction twice is the same as applying it once. */
  lemma ReprocessIdempotent(batch: seq<Triple>)
    ensures Reprocess(Reprocess(batch)) == Reprocess(batch)
  {
    var r := Reprocess(batch);
    forall i | 0 <= i < |r| ensures Corrected(r[i], r) == r[i] {
      MirrorsKept(batch, r[i]);
    }
  }

  /** The mirror pair "wheel part of car" / "car has parts wheel" becomes composition; alone, it stays aggregation. */
  lemma ReciprocalExample()
    ensures var wheelInCar := Triple("wheel", "part of", "car", Aggregation, Class, Class);
            var carHasWheel := Triple("car", "has parts", "wheel", Aggregation, Class, Class);
            Reprocess([wheelInCar, carHasWheel]) ==
              [wheelInCar.(relType := Composition), carHasWheel.(relType := Composition)]
            && Reprocess([wheelInCar]) == [wheelInCar]
  {
    var wheelInCar := Triple("wheel", "part of", "car", Aggregation, Class, Class);
    var carHasWheel := Triple("car", "has parts", "wheel", Aggregation, Class, Class);
    assert HasMirror(wheelInCar, [wheelInCar, carHasWheel]) by {
      assert carHasWheel in [wheelInCar, carHasWheel];
    }
    assert HasMirror(carHasWheel, [wheelInCar, carHasWheel]) by {
      assert wheelInCar in [wheelInCar, carHasWheel];
    }
    assert !HasMirror(wheelInCar, [wheelInCar]);
  }

  // ---------------------------------------------------------------------------
  // Writer
  // ---------------------------------------------------------------------------

  /** Lines 145-148: an endpoint whose name is registered is printed as `class`. */
  function Promote(t: Triple, registry: set<string>): Triple
  {
    t.(subType := if t.sub in registry then Class else t.subType,
       objType := if t.obj in registry then Class else t.objType)
  }

  // ---------------------------------------------------------------------------
  // Reading a classified line back
  // ---------------------------------------------------------------------------

  /** Every character of a type name is a lower-case letter or a space. */
  lemma TypeNameChars(e: EndpointType, r: RelationType)
    ensures forall c :: c in EndpointTypeName(e) ==> 'a' <= c <= 'z' || c == ' '
    ensures forall c :: c in RelationTypeName(r) ==> 'a' <= c <= 'z' || c == ' '
  {
  }

  /** A name that the classified-line readers can cut out again. */
  predicate Separable(s: string)
  {
    !Contains(s, ", ") && !Contains(s, " (") && !Contains(s, " : ")
  }

  /** What follows the subject's closing quote: ` (type)`. */
  function SubjectTail(t: Triple): string
  {
    "' (" + EndpointTypeName(t.subType) + ")"
  }

  /** The subject piece of a classified line: `'sub' (type)`. */
  function SubjectPiece(t: Triple): string
  {
    "'" + t.sub + SubjectTail(t)
  }

  /** The relation piece of a classified line: `'rel'`. */
  function RelationPiece(t: Triple): string
  {
    "'" + t.rel + "'"
  }

  /** What follows the object's closing quote: ` (type) : relation type` and the newline. */
  function ObjectTail(t: Triple): string
  {
    "' (" + EndpointTypeName(t.objType) + ") : " + RelationTypeName(t.relType) + "\n"
  }

  /** The object piece of a classified line: `'obj' (type) : relation type`. */
  function ObjectPiece(t: Triple): string
  {
    "'" + t.obj + ObjectTail(t)
  }

  /**
   * Line 149: one classified output line,
   * `'sub' (type), 'rel', 'obj' (type) : relation type` and a newline.
   */
  function FormatLine(t: Triple): string
  {
    SubjectPiece(t) + ", " + RelationPiece(t) + ", " + ObjectPiece(t)
  }

  /** A quoted name followed by a tail opening with a quote holds `sep` only if the name or tail does. */
  lemma QuotedFree(x: string, tail: string, sep: string)
    requires sep != "" && '\'' !in sep && !Contains(x, sep) && !Contains(tail, sep)
    requires tail != "" && tail[0] == '\''
    ensures !Contains("'" + x + tail, sep)
  {
    NotContainsByChar("'", sep, sep[0]);
    NotContainsConcat("'", x, sep);
    NotContainsConcat("'" + x, tail, sep);
  }

  lemma TailChars(t: Triple)
    ensures ',' !in SubjectTail(t) && ',' !in ObjectTail(t)
    ensures '(' !in EndpointTypeName(t.subType) + ")"
    ensures '(' !in EndpointTypeName(t.objType) + ") : " + RelationTypeName(t.relType) + "\n"
    ensures ')' !in EndpointTypeName(t.objType)
    ensures ':' !in "' (" + EndpointTypeName(t.objType) + ")"
    ensures ':' !in RelationTypeName(t.relType) + "\n"
  {
    TypeNameChars(t.subType, t.relType);
    TypeNameChars(t.objType, t.relType);
  }

  lemma SubjectPieceClosed(t: Triple)
    requires Separable(t.sub)
    ensures ClosedBefore(SubjectPiece(t), ", ")
  {
    TailChars(t);
    NotContainsByChar(SubjectTail(t), ", ", ',');
    QuotedFree(t.sub, SubjectTail(t), ", ");
  }

  lemma RelationPieceClosed(t: Triple)
    requires Separable(t.rel)
    ensures ClosedBefore(RelationPiece(t), ", ")
  {
    NotContainsByChar("'", ", ", ',');
    QuotedFree(t.rel, "'", ", ");
  }

  lemma ObjectPieceFree(t: Triple)
    requires Separable(t.obj)
    ensures !Contains(ObjectPiece(t), ", ")
  {
    TailChars(t);
    NotContainsByChar(ObjectTail(t), ", ", ',');
    QuotedFree(t.obj, ObjectTail(t), ", ");
  }

  /** A classified line with separable names splits on ", " into its three pieces. */
  lemma FormatLineSplit(t: Triple)
    requires Separable(t.sub) && Separable(t.rel) && Separable(t.obj)
    ensures Split(FormatLine(t), ", ") == [SubjectPiece(t), RelationPiece(t), ObjectPiece(t)]
  {
    SubjectPieceClosed(t);
    RelationPieceClosed(t);
    ObjectPieceFree(t);
    SplitThree(SubjectPiece(t), RelationPiece(t), ObjectPiece(t), ", ");
  }

  lemma SubjectPieceShape(t: Triple)
    ensures SubjectPiece(t) == "'" + t.sub + "'" + " (" + (EndpointTypeName(t.subType) + ")")
  {
  }

  /** The subject piece splits on " (" into the quoted subject and `type)`. */
  lemma SubjectPieceSplit(t: Triple)
    requires Separable(t.sub)
    ensures Split(SubjectPiece(t), " (") == ["'" + t.sub + "'", EndpointTypeName(t.subType) + ")"]
  {
    var rest := EndpointTypeName(t.subType) + ")";
    TailChars(t);
    NotContainsByChar("'", " (", '(');
    NotContainsByChar(rest, " (", '(');
    QuotedFree(t.sub, "'", " (");
    SplitCons("'" + t.sub + "'", " (", rest);
    SplitSingle(rest, " (");
    SubjectPieceShape(t);
  }

  lemma ObjectPieceShape(t: Triple)
    ensures ObjectPiece(t) == "'" + t.obj + "'" + " (" + (EndpointTypeName(t.objType) + ") : " + RelationTypeName(t.relType) + "\n")
    ensures ObjectPiece(t) == "'" + t.obj + ("' (" + EndpointTypeName(t.objType) + ")") + " : " + (RelationTypeName(t.relType) + "\n")
  {
  }

  lemma TypeRestShape(t: Triple)
    ensures EndpointTypeName(t.objType) + ") : " + RelationTypeName(t.relType) + "\n"
      == EndpointTypeName(t.objType) + ")" + (" : " + RelationTypeName(t.relType) + "\n")
  {
  }

  /** What follows the object's " (" splits on ")" with the object type first. */
  lemma TypeRestSplit(t: Triple)
    ensures Split(EndpointTypeName(t.objType) + ") : " + RelationTypeName(t.relType) + "\n", ")")[0]
      == EndpointTypeName(t.objType)
  {
    TailChars(t);
    NotContainsByChar(EndpointTypeName(t.objType), ")", ')');
    SplitCons(EndpointTypeName(t.objType), ")", " : " + RelationTypeName(t.relType) + "\n");
    TypeRestShape(t);
  }

  /** The object piece splits on " (" into the quoted object and the rest. */
  lemma ObjectPieceSplitType(t: Triple)
    requires Separable(t.obj)
    ensures var parts := Split(ObjectPiece(t), " (");
      |parts| == 2 && parts[0] == "'" + t.obj + "'"
      && Split(parts[1], ")")[0] == EndpointTypeName(t.objType)
  {
    var rest := EndpointTypeName(t.objType) + ") : " + RelationTypeName(t.relType) + "\n";
    TailChars(t);
    NotContainsByChar("'", " (", '(');
    NotContainsByChar(rest, " (", '(');
    QuotedFree(t.obj, "'", " (");
    SplitCons("'" + t.obj + "'", " (", rest);
    SplitSingle(rest, " (");
    ObjectPieceShape(t);
    TypeRestSplit(t);
  }

  /** The object piece splits on " : " into everything before and `relation type\n`. */
  lemma ObjectPieceSplitRelation(t: Triple)
    requires Separable(t.obj)
    ensures var parts := Split(ObjectPiece(t), " : ");
      |parts| == 2 && parts[1] == RelationTypeName(t.relType) + "\n"
  {
    var head := "' (" + EndpointTypeName(t.objType) + ")";
    var rt := RelationTypeName(t.relType) + "\n";
    TailChars(t);
    NotContainsByChar(head, " : ", ':');
    NotContainsByChar(rt, " : ", ':');
    QuotedFree(t.obj, head, " : ");
    SplitCons("'" + t.obj + head, " : ", rt);
    SplitSingle(rt, " : ");
    ObjectPieceShape(t);
  }

  /** The slices the readers take of the pieces give back the names. */
  lemma PieceSlices(t: Triple)
    ensures Slice("'" + t.sub + "'", 1, -1) == t.sub
    ensures Slice("'" + t.obj + "'", 1, -1) == t.obj
    ensures Slice(RelationPiece(t), 1, -1) == t.rel
    ensures Slice(EndpointTypeName(t.subType) + ")", 0, -1) == EndpointTypeName(t.subType)
    ensures Slice(RelationTypeName(t.relType) + "\n", 0, -1) == RelationTypeName(t.relType)
  {
    assert ("'" + t.sub + "'")[1..|t.sub| + 1] == t.sub;
    assert ("'" + t.obj + "'")[1..|t.obj| + 1] == t.obj;
    assert ("'" + t.rel + "'")[1..|t.rel| + 1] == t.rel;
    var sn := EndpointTypeName(t.subType);
    assert (sn + ")")[0..|sn|] == sn;
    var rn := RelationTypeName(t.relType);
    assert (rn + "\n")[0..|rn|] == rn;
  }

  /**
   * Registry membership wins over every earlier classification and nothing
   * else is altered; promoting twice, or against a smaller registry first,
   * gives the same triple.
   */
  lemma PromoteProperties(t: Triple, registry: set<string>, smaller: set<string>)
    requires smaller <= registry
    ensures var p := Promote(t, registry);
      p.sub == t.sub && p.rel == t.rel && p.obj == t.obj && p.relType == t.relType
      && (t.sub in registry ==> p.subType == Class) && (t.sub !in registry ==> p.subType == t.subType)
      && (t.obj in registry ==> p.objType == Class) && (t.obj !in registry ==> p.objType == t.objType)
      && Promote(Promote(t, smaller), registry) == p
  {
  }

  /**
   * The classifier's state across the whole run: the registry of confirmed
   * class names (`identified_classes`). It is created empty and never cleared,
   * so names registered while processing one file still promote endpoints when
   * a later file is written.
   */
  class ClassRegistry {
    var names: set<string>

    constructor ()
      ensures names == {}
    {
      names := {};
    }

    /**
     * `process_triples_file` on the lines of one file: the local pass, which
     * adds to the registry, then the reciprocal correction of the batch.
     */
    method ProcessTriplesFile(lines: seq<string>, isEntity: string -> bool) returns (processed: seq<Triple>)
      modifies this
      ensures processed == Reprocess(ClassifyLines(lines, isEntity))
      ensures names == old(names) + RegisteredBy(lines, isEntity)
    {
      var batch: seq<Triple> := [];
      for i := 0 to |lines|
        invariant batch == ClassifyLines(lines[..i], isEntity)
        invariant names == old(names) + RegisteredBy(lines[..i], isEntity)
      {
        assert lines[..i + 1][..i] == lines[..i];
        var c := ClassifyLine(lines[i], isEntity);
        if c.Some? {
          batch := batch + [c.value.triple];
          names := names + c.value.registered;
        }
      }
      assert lines[..|lines|] == lines;
      processed := ReprocessAggregationRelations(batch);
    }

    /** `write_processed_triples`: the output lines, registered endpoints printed as `class`. */
    method WriteProcessedTriples(triples: seq<Triple>) returns (out: seq<string>)
      ensures |out| == |triples|
      ensures forall i :: 0 <= i < |triples| ==> out[i] == FormatLine(Promote(triples[i], names))
    {
      out := [];
      for i := 0 to |triples|
        invariant |out| == i
        invariant forall k :: 0 <= k < i ==> out[k] == FormatLine(Promote(triples[k], names))
      {
        var t := triples[i];
        var objT := t.objType;
        var subT := t.subType;
        if t.obj in names {
          objT := Class;
        }
        if t.sub in names {
          subT := Class;
        }
        out := out + [FormatLine(t.(subType := subT, objType := objT))];
      }
    }
  }
}
