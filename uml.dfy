/**
 * The PlantUML converter of convert_from_triples_to_UML.py: reading a
 * classified-triples file into class-to-class relations and per-class
 * attribute lists, and rendering them as a PlantUML document.
 *
 * File contents are sequences of lines (`readlines`) and the written document
 * is returned as a string; opening and appending to files is not modelled.
 */
module Uml {
  import opened Wrappers
  import opened PyStr
  import Classifier

  /** A relation kept by the reader: subject, relation phrase, relation type, object. */
  datatype Relation = Relation(subject: string, name: string, relType: string, obj: string)

  /** What one line contributes: nothing, an attribute, a relation, or an uncaught IndexError. */
  datatype LineParse = Skip | Attr(cls: string, attr: string) | Rel(rel: Relation) | Crash

  /** Class names in first-insertion order with their attribute names (a Python dict of lists). */
  type Attributes = seq<(string, seq<string>)>

  datatype Reading = Reading(relations: seq<Relation>, attributes: Attributes)

  const AttributePhrases: seq<string> := ["has characteristic", "properties for this type", "has properties"]

  /** The six fields lines 24-31 cut out of a line. */
  datatype Fields = Fields(subject: string, subjectType: string, obj: string, objType: string,
                           relation: string, relationName: string)

  /**
   * Lines 24-31 on the three ", " pieces of a line; None where a missing
   * " (" or " : " makes an index out of range.
   */
  function LineFields(parts: seq<string>): Option<Fields>
    requires |parts| == 3
  {
    var sp := Split(parts[0], " (");
    var op := Split(parts[2], " (");
    var rp := Split(parts[2], " : ");
    if |sp| < 2 || |op| < 2 || |rp| < 2 then None
    else Some(Fields(Slice(sp[0], 1, -1), Slice(sp[1], 0, -1),
                     Slice(op[0], 1, -1), Split(op[1], ")")[0],
                     Slice(rp[1], 0, -1), Slice(parts[1], 1, -1)))
  }

  /** Lines 35-47: what a line with these fields contributes. */
  function Contribution(line: string, f: Fields): LineParse
  {
    if f.subjectType == "object" || f.objType == "object" then Skip
    else if (exists p | p in AttributePhrases :: Contains(line, p)) && f.relation == "attributes" then
      Attr(f.subject, f.obj)
    else Rel(Relation(f.subject, f.relationName, f.relation, f.obj))
  }

  /**
   * Lines 22-47 for one line. A line that does not split into three pieces on
   * ", " is skipped; an index out of range aborts the whole read.
   */
  function ReadLine(line: string): LineParse
  {
    var parts := Split(line, ", ");
    if |parts| != 3 then Skip
    else match LineFields(parts)
      case None => Crash
      case Some(f) => Contribution(line, f)
  }

  // ---------------------------------------------------------------------------
  // The attribute dictionary
  // ---------------------------------------------------------------------------

  function Keys(attrs: Attributes): seq<string>
  {
    seq(|attrs|, i requires 0 <= i < |attrs| => attrs[i].0)
  }

  /** The attribute list of `cls`, empty when the class has no entry. */
  function Lookup(attrs: Attributes, cls: string): seq<string>
  {
    if attrs == [] then []
    else if attrs[0].0 == cls then attrs[0].1
    else Lookup(attrs[1..], cls)
  }

  /** No element occurs twice. */
  predicate Distinct(xs: seq<string>)
  {
    forall i, j :: 0 <= i < j < |xs| ==> xs[i] != xs[j]
  }

  /** Lines 41-44: append to the class's list, or start a new entry at the end. */
  function AddAttribute(attrs: Attributes, cls: string, attr: string): Attributes
  {
    if attrs == [] then [(cls, [attr])]
    else if attrs[0].0 == cls then [(cls, attrs[0].1 + [attr])] + attrs[1..]
    else [attrs[0]] + AddAttribute(attrs[1..], cls, attr)
  }

  /** Adding an attribute appends it to the class's list and leaves every other class alone. */
  lemma {:induction false} AddAttributeLookup(attrs: Attributes, cls: string, attr: string, k: string)
    ensures Lookup(AddAttribute(attrs, cls, attr), k) == Lookup(attrs, k) + (if k == cls then [attr] else [])
  {
    if attrs != [] && attrs[0].0 != cls {
      AddAttributeLookup(attrs[1..], cls, attr, k);
    }
  }

  /** A known class keeps its place in the key order; a new class goes to the end. */
  lemma {:induction false} AddAttributeKeys(attrs: Attributes, cls: string, attr: string)
    ensures Keys(AddAttribute(attrs, cls, attr)) == if cls in Keys(attrs) then Keys(attrs) else Keys(attrs) + [cls]
  {
    if attrs != [] {
      var rest := attrs[1..];
      assert Keys(attrs) == [attrs[0].0] + Keys(rest);
      if attrs[0].0 != cls {
        AddAttributeKeys(rest, cls, attr);
        assert Keys(AddAttribute(attrs, cls, attr)) == [attrs[0].0] + Keys(AddAttribute(rest, cls, attr));
      }
    }
  }

  /** Adding an attribute never gives a class a second entry. */
  lemma AddAttributeDistinct(attrs: Attributes, cls: string, attr: string)
    requires Distinct(Keys(attrs))
    ensures Distinct(Keys(AddAttribute(attrs, cls, attr)))
  {
    AddAttributeKeys(attrs, cls, attr);
    var ks := Keys(attrs);
    if cls !in ks {
      forall i, j | 0 <= i < j < |ks + [cls]| ensures (ks + [cls])[i] != (ks + [cls])[j] {
        if j == |ks| {
          assert ks[i] in ks;
        }
      }
    }
  }

  // ---------------------------------------------------------------------------
  // Reading a whole file
  // ---------------------------------------------------------------------------

  /** The effect of one parsed line on what has been read so far; None once a line crashes. */
  function Step(r: Reading, p: LineParse): Option<Reading>
  {
    match p
    case Skip => Some(r)
    case Crash => None
    case Attr(cls, attr) => Some(r.(attributes := AddAttribute(r.attributes, cls, attr)))
    case Rel(rel) => Some(r.(relations := r.relations + [rel]))
  }

  /** Folding the parsed lines in order, stopping at the first crash. */
  function Fold(ps: seq<LineParse>): Option<Reading>
  {
    if ps == [] then Some(Reading([], []))
    else match Fold(ps[..|ps| - 1])
      case None => None
      case Some(r) => Step(r, ps[|ps| - 1])
  }

  function Parses(lines: seq<string>): seq<LineParse>
  {
    seq(|lines|, i requires 0 <= i < |lines| => ReadLine(lines[i]))
  }

  /** `read_file` on the lines of a file: the relations and attributes, or None on an IndexError. */
  function ReadLines(lines: seq<string>): Option<Reading>
  {
    Fold(Parses(lines))
  }

  /** Once the fold has failed it stays failed. */
  lemma {:induction false} FoldFailureSticks(ps: seq<LineParse>, k: nat)
    requires k <= |ps| && Fold(ps[..k]).None?
    ensures Fold(ps).None?
    decreases |ps| - k
  {
    if k < |ps| {
      assert ps[..k + 1][..k] == ps[..k];
      FoldFailureSticks(ps, k + 1);
    } else {
      assert ps[..k] == ps;
    }
  }

  /** Lines 16-48: the reading loop. */
  method ReadFile(lines: seq<string>) returns (result: Option<Reading>)
    ensures result == ReadLines(lines)
  {
    var relations: seq<Relation> := [];
    var attributes: Attributes := [];
    ghost var ps := Parses(lines);
    var i := 0;
    while i < |lines|
      invariant 0 <= i <= |lines|
      invariant Fold(ps[..i]) == Some(Reading(relations, attributes))
    {
      assert ps[..i + 1][..i] == ps[..i];
      var p := ReadLine(lines[i]);
      assert p == ps[i];
      if p.Crash? {
        FoldFailureSticks(ps, i + 1);
        return None;
      } else if p.Attr? {
        attributes := AddAttribute(attributes, p.cls, p.attr);
      } else if p.Rel? {
        relations := relations + [p.rel];
      }
      i := i + 1;
    }
    assert ps[..i] == ps;
    result := Some(Reading(relations, attributes));
  }

  /** The fold fails exactly when some parsed line is a crash. */
  lemma {:induction false} FoldFails(ps: seq<LineParse>)
    ensures Fold(ps).None? <==> Crash in ps
  {
    if ps != [] {
      var n := |ps| - 1;
      FoldFails(ps[..n]);
      assert ps == ps[..n] + [ps[n]];
    }
  }

  /** The read fails exactly when some line crashes. */
  lemma ReadLinesFails(lines: seq<string>)
    ensures ReadLines(lines).None? <==> exists i :: 0 <= i < |lines| && ReadLine(lines[i]).Crash?
  {
    FoldFails(Parses(lines));
    if Crash in Parses(lines) {
      var i :| 0 <= i < |lines| && Parses(lines)[i] == Crash;
    }
    if exists i :: 0 <= i < |lines| && ReadLine(lines[i]).Crash? {
      var i :| 0 <= i < |lines| && ReadLine(lines[i]).Crash?;
      assert Parses(lines)[i] == Crash;
    }
  }

  /** The class list of a successful fold never holds a class twice. */
  lemma {:induction false} FoldDistinctClasses(ps: seq<LineParse>)
    requires Fold(ps).Some?
    ensures Distinct(Keys(Fold(ps).value.attributes))
  {
    if ps != [] {
      var n := |ps| - 1;
      FoldDistinctClasses(ps[..n]);
      var r := Fold(ps[..n]).value;
      match ps[n]
      case Attr(cls, attr) => AddAttributeDistinct(r.attributes, cls, attr);
      case _ =>
    }
  }

  // ---------------------------------------------------------------------------
  // Reading back what the classifier writes
  // ---------------------------------------------------------------------------

  lemma ClassifiedLineMentionsRelation(t: Classifier.Triple)
    ensures Contains(Classifier.FormatLine(t), t.rel)
  {
    var before := Classifier.SubjectPiece(t) + ", " + "'";
    var after := "'" + ", " + Classifier.ObjectPiece(t);
    ContainsMiddle(before, t.rel, after);
    assert Classifier.FormatLine(t) == before + t.rel + after;
  }

  /** The fields cut out of a classified line with separable names are its own. */
  lemma ClassifiedLineFields(t: Classifier.Triple)
    requires Classifier.Separable(t.sub) && Classifier.Separable(t.rel) && Classifier.Separable(t.obj)
    ensures var parts := Split(Classifier.FormatLine(t), ", ");
      |parts| == 3
      && LineFields(parts) == Some(Fields(t.sub, Classifier.EndpointTypeName(t.subType),
                                          t.obj, Classifier.EndpointTypeName(t.objType),
                                          Classifier.RelationTypeName(t.relType), t.rel))
  {
    Classifier.FormatLineSplit(t);
    Classifier.SubjectPieceSplit(t);
    Classifier.ObjectPieceSplitType(t);
    Classifier.ObjectPieceSplitRelation(t);
    Classifier.PieceSlices(t);
  }

  /**
   * A line the classifier writes for separable names reads back as what it
   * describes: skipped when either endpoint is an object, an attribute of the
   * subject when its type is `attributes`, a relation otherwise.
   */
  lemma ReadClassifiedLine(t: Classifier.Triple)
    requires Classifier.Separable(t.sub) && Classifier.Separable(t.rel) && Classifier.Separable(t.obj)
    requires t.relType == Classifier.Attributes ==> t.rel in Classifier.AttributeRelations
    ensures ReadLine(Classifier.FormatLine(t)) ==
      if t.subType == Classifier.Object || t.objType == Classifier.Object then Skip
      else if t.relType == Classifier.Attributes then Attr(t.sub, t.obj)
      else Rel(Relation(t.sub, t.rel, Classifier.RelationTypeName(t.relType), t.obj))
  {
    ClassifiedLineFields(t);
    if t.relType == Classifier.Attributes {
      ClassifiedLineMentionsRelation(t);
    }
  }

  // ---------------------------------------------------------------------------
  // Writing the PlantUML document
  // ---------------------------------------------------------------------------

  /** Lines 2-7: the arrow for a relation type; None where the lookup raises KeyError. */
  function Glyph(relType: string): (g: Option<string>)
    ensures g.Some? <==> relType in ["association", "inheritance", "composition", "aggregation"]
  {
    if relType == "association" then Some("-->")
    else if relType == "inheritance" then Some("<|--")
    else if relType == "composition" then Some("*--")
    else if relType == "aggregation" then Some("o--")
    else None
  }

  /** Every relation type of the classifier but `attributes` has an arrow. */
  lemma GlyphOfRelationType(t: Classifier.RelationType)
    ensures Glyph(Classifier.RelationTypeName(t)).Some? <==> t != Classifier.Attributes
  {
  }

  /** Line 62: one attribute line of a class block. */
  function AttributeLine(attr: string): string
  {
    "  +\"" + attr + "\" : String\n"
  }

  function AttributeLines(attrs: seq<string>): string
  {
    if attrs == [] then "" else AttributeLine(attrs[0]) + AttributeLines(attrs[1..])
  }

  /** Lines 60-63: the block of one class. */
  function ClassBlock(cls: string, attrs: seq<string>): string
  {
    "class \"" + cls + "\" {\n" + AttributeLines(attrs) + "}\n"
  }

  /** Lines 59-63: the class blocks in the dictionary's insertion order. */
  function ClassesText(classes: Attributes): string
  {
    if classes == [] then "" else ClassBlock(classes[0].0, classes[0].1) + ClassesText(classes[1..])
  }

  /** Line 76: one relation line, or None where the type has no arrow. */
  function RelationLine(r: Relation): Option<string>
  {
    match Glyph(r.relType)
    case None => None
    case Some(g) => Some("\"" + r.subject + "\" " + g + " \"" + r.obj + "\" : " + r.name + "\n")
  }

  /** Lines 75-76: the relation lines in order; None at the first relation without an arrow. */
  function RelationLines(rels: seq<Relation>): Option<string>
  {
    if rels == [] then Some("")
    else match RelationLine(rels[0])
      case None => None
      case Some(line) =>
        match RelationLines(rels[1..])
        case None => None
        case Some(rest) => Some(line + rest)
  }

  /**
   * Lines 79-94: the whole document, or None when writing a relation raises
   * KeyError (the closing line is then never written).
   */
  function UmlDocument(filename: string, classes: Attributes, rels: seq<Relation>): Option<string>
  {
    match RelationLines(rels)
    case None => None
    case Some(relText) => Some(UmlHeader(filename) + (ClassesText(classes) + "\n" + relText) + "@endtuml")
  }

  /** Lines 87-88: the start line naming the file, then the directive hiding empty method sections. */
  function UmlHeader(filename: string): string
  {
    "@startuml " + filename + "\nhide empty methods\n"
  }

  /** The relations can be written exactly when every relation type has an arrow. */
  lemma {:induction false} RelationLinesDefined(rels: seq<Relation>)
    ensures RelationLines(rels).Some? <==> forall i :: 0 <= i < |rels| ==> Glyph(rels[i].relType).Some?
  {
    if rels != [] {
      RelationLinesDefined(rels[1..]);
      assert forall i :: 1 <= i < |rels| ==> rels[i] == rels[1..][i - 1];
    }
  }

  /** Every class of the dictionary opens a block of its own in the document. */
  lemma {:induction false} ClassesTextHasEveryClass(classes: Attributes, k: int)
    requires 0 <= k < |classes|
    ensures Contains(ClassesText(classes), "class \"" + classes[k].0 + "\" {\n")
  {
    var block := ClassBlock(classes[0].0, classes[0].1);
    if k == 0 {
      var head := "class \"" + classes[0].0 + "\" {\n";
      assert ClassesText(classes)[..|head|] == head;
    } else {
      ClassesTextHasEveryClass(classes[1..], k - 1);
      ContainsInSuffix(block, ClassesText(classes[1..]), "class \"" + classes[1..][k - 1].0 + "\" {\n");
    }
  }

  /** Every attribute of a class gets its own line in the class's block. */
  lemma {:induction false} ClassBlockHasEveryAttribute(cls: string, attrs: seq<string>, j: int)
    requires 0 <= j < |attrs|
    ensures Contains(ClassBlock(cls, attrs), AttributeLine(attrs[j]))
  {
    AttributeLinesHaveEveryAttribute(attrs, j);
    var open := "class \"" + cls + "\" {\n";
    ContainsMiddle(open, AttributeLines(attrs), "}\n");
    ContainsTransitive(ClassBlock(cls, attrs), AttributeLines(attrs), AttributeLine(attrs[j]));
  }

  lemma {:induction false} AttributeLinesHaveEveryAttribute(attrs: seq<string>, j: int)
    requires 0 <= j < |attrs|
    ensures Contains(AttributeLines(attrs), AttributeLine(attrs[j]))
  {
    if j == 0 {
      ContainsMiddle("", AttributeLine(attrs[0]), AttributeLines(attrs[1..]));
      assert "" + AttributeLine(attrs[0]) + AttributeLines(attrs[1..]) == AttributeLines(attrs);
    } else {
      AttributeLinesHaveEveryAttribute(attrs[1..], j - 1);
      ContainsInSuffix(AttributeLine(attrs[0]), AttributeLines(attrs[1..]), AttributeLine(attrs[j]));
    }
  }

  /** The block of every class of the dictionary is part of the class text. */
  lemma {:induction false} ClassesTextHasEveryBlock(classes: Attributes, k: int)
    requires 0 <= k < |classes|
    ensures Contains(ClassesText(classes), ClassBlock(classes[k].0, classes[k].1))
  {
    var block := ClassBlock(classes[0].0, classes[0].1);
    if k == 0 {
      ContainsMiddle("", block, ClassesText(classes[1..]));
      assert "" + block + ClassesText(classes[1..]) == ClassesText(classes);
    } else {
      ClassesTextHasEveryBlock(classes[1..], k - 1);
      ContainsInSuffix(block, ClassesText(classes[1..]), ClassBlock(classes[k].0, classes[k].1));
    }
  }

  /** Every relation that can be written has its line in the relation text. */
  lemma {:induction false} RelationLinesHaveEveryRelation(rels: seq<Relation>, i: int)
    requires 0 <= i < |rels| && RelationLines(rels).Some?
    ensures RelationLine(rels[i]).Some?
    ensures Contains(RelationLines(rels).value, RelationLine(rels[i]).value)
  {
    var line := RelationLine(rels[0]).value;
    var rest := RelationLines(rels[1..]).value;
    if i == 0 {
      ContainsMiddle("", line, rest);
      assert "" + line + rest == RelationLines(rels).value;
    } else {
      RelationLinesHaveEveryRelation(rels[1..], i - 1);
      ContainsInSuffix(line, rest, RelationLine(rels[i]).value);
    }
  }

  /**
   * Every attribute line of every class and every relation line is part of the
   * written document.
   */
  lemma UmlDocumentHasEveryLine(filename: string, classes: Attributes, rels: seq<Relation>)
    requires UmlDocument(filename, classes, rels).Some?
    ensures var doc := UmlDocument(filename, classes, rels).value;
      (forall k, j :: 0 <= k < |classes| && 0 <= j < |classes[k].1| ==>
        Contains(doc, AttributeLine(classes[k].1[j])))
      && (forall i :: 0 <= i < |rels| ==>
        RelationLine(rels[i]).Some? && Contains(doc, RelationLine(rels[i]).value))
  {
    var doc := UmlDocument(filename, classes, rels).value;
    var head := UmlHeader(filename);
    var classText := ClassesText(classes);
    var relText := RelationLines(rels).value;
    assert doc == head + (classText + "\n" + relText) + "@endtuml";
    assert doc == head + classText + ("\n" + relText + "@endtuml");
    ContainsMiddle(head, classText, "\n" + relText + "@endtuml");
    assert doc == (head + classText + "\n") + relText + "@endtuml";
    ContainsMiddle(head + classText + "\n", relText, "@endtuml");
    forall k, j | 0 <= k < |classes| && 0 <= j < |classes[k].1|
      ensures Contains(doc, AttributeLine(classes[k].1[j]))
    {
      var block := ClassBlock(classes[k].0, classes[k].1);
      ClassesTextHasEveryBlock(classes, k);
      ClassBlockHasEveryAttribute(classes[k].0, classes[k].1, j);
      ContainsTransitive(classText, block, AttributeLine(classes[k].1[j]));
      ContainsTransitive(doc, classText, AttributeLine(classes[k].1[j]));
    }
    forall i | 0 <= i < |rels|
      ensures RelationLine(rels[i]).Some? && Contains(doc, RelationLine(rels[i]).value)
    {
      RelationLinesHaveEveryRelation(rels, i);
      ContainsTransitive(doc, relText, RelationLine(rels[i]).value);
    }
  }

  /** The document opens with the start line and the directive, and ends with the closing line. */
  lemma UmlDocumentFrame(filename: string, classes: Attributes, rels: seq<Relation>)
    requires UmlDocument(filename, classes, rels).Some?
    ensures var doc := UmlDocument(filename, classes, rels).value;
      StartsWith(doc, "@startuml " + filename + "\nhide empty methods\n")
      && |doc| >= 8 && doc[|doc| - 8..] == "@endtuml"
  {
    var doc := UmlDocument(filename, classes, rels).value;
    var head := UmlHeader(filename);
    var body := ClassesText(classes) + "\n" + RelationLines(rels).value;
    assert doc == head + body + "@endtuml";
    assert doc[..|head|] == head;
    assert doc[|doc| - 8..] == "@endtuml";
  }

  // ---------------------------------------------------------------------------
  // From classified lines to a document
  // ---------------------------------------------------------------------------

  /** Relations folded from lines whose relations all have arrows all have arrows. */
  lemma {:induction false} FoldRelationsHaveGlyphs(ps: seq<LineParse>)
    requires Fold(ps).Some?
    requires forall i :: 0 <= i < |ps| && ps[i].Rel? ==> Glyph(ps[i].rel.relType).Some?
    ensures forall r :: r in Fold(ps).value.relations ==> Glyph(r.relType).Some?
  {
    if ps != [] {
      var n := |ps| - 1;
      FoldRelationsHaveGlyphs(ps[..n]);
    }
  }

  /**
   * A file of classifier output lines with separable names reads without an
   * index error, and the relations read from it can all be drawn, so the
   * document is written in full.
   */
  lemma ClassifiedFileConverts(ts: seq<Classifier.Triple>, lines: seq<string>, filename: string)
    requires |lines| == |ts|
    requires forall i :: 0 <= i < |ts| ==> lines[i] == Classifier.FormatLine(ts[i])
    requires forall t | t in ts :: Classifier.Separable(t.sub) && Classifier.Separable(t.rel) && Classifier.Separable(t.obj)
    requires forall t | t in ts :: t.relType == Classifier.Attributes ==> t.rel in Classifier.AttributeRelations
    ensures ReadLines(lines).Some?
    ensures UmlDocument(filename, ReadLines(lines).value.attributes, ReadLines(lines).value.relations).Some?
  {
    var ps := Parses(lines);
    forall i | 0 <= i < |ps|
      ensures !ps[i].Crash? && (ps[i].Rel? ==> Glyph(ps[i].rel.relType).Some?)
    {
      assert ts[i] in ts;
      ReadClassifiedLine(ts[i]);
      GlyphOfRelationType(ts[i].relType);
    }
    FoldFails(ps);
    FoldRelationsHaveGlyphs(ps);
    var rels := ReadLines(lines).value.relations;
    forall i | 0 <= i < |rels| ensures Glyph(rels[i].relType).Some? {
      assert rels[i] in rels;
    }
    RelationLinesDefined(rels);
  }
}
