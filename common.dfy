/**
 * The cross-source comparison of find_common_wikipedia_wikidata.py: reading
 * the classified triples of a file as (subject, relation type, object),
 * keeping the Wikipedia triples that also occur among the Wikidata ones, and
 * the line format of the saved result.
 *
 * Files are sequences of lines; the fixed list of file pairs, opening files
 * and the final count message are not modelled.
 */
module CommonTriples {
  import opened Wrappers
  import opened PyStr
  import Classifier

  /** A compared triple: subject, relation type, object. */
  type Triple3 = (string, string, string)

  datatype TripleParse = Skip | Keep(triple: Triple3) | Crash

  /**
   * Lines 24-29 for one line: lower-cased and split on ", "; a line of
   * three pieces gives its subject, relation type and object, and a missing
   * " : " makes an index out of range that aborts the read.
   */
  function ReadTripleLine(line: string): TripleParse
  {
    var parts := Split(Lower(line), ", ");
    if |parts| != 3 then Skip
    else
      var rp := Split(parts[2], " : ");
      if |rp| < 2 then Crash
      else Keep((Slice(Split(parts[0], " (")[0], 1, -1),
                 Slice(rp[1], 0, -1),
                 Slice(Split(parts[2], " (")[0], 1, -1)))
  }

  /** Collecting the kept triples in order, stopping at the first crash. */
  function Collect(ps: seq<TripleParse>): Option<seq<Triple3>>
  {
    if ps == [] then Some([])
    else match Collect(ps[..|ps| - 1])
      case None => None
      case Some(ts) =>
        match ps[|ps| - 1]
        case Skip => Some(ts)
        case Crash => None
        case Keep(t) => Some(ts + [t])
  }

  function TripleParses(lines: seq<string>): seq<TripleParse>
  {
    seq(|lines|, i requires 0 <= i < |lines| => ReadTripleLine(lines[i]))
  }

  /** `read_triples` on the lines of a file, or None on an IndexError. */
  function ReadTriples(lines: seq<string>): Option<seq<Triple3>>
  {
    Collect(TripleParses(lines))
  }

  lemma {:induction false} CollectFailureSticks(ps: seq<TripleParse>, k: nat)
    requires k <= |ps| && Collect(ps[..k]).None?
    ensures Collect(ps).None?
    decreases |ps| - k
  {
    if k < |ps| {
      assert ps[..k + 1][..k] == ps[..k];
      CollectFailureSticks(ps, k + 1);
    } else {
      assert ps[..k] == ps;
    }
  }

  /** Lines 20-30: the reading loop. */
  method ReadTriplesFile(lines: seq<string>) returns (result: Option<seq<Triple3>>)
    ensures result == ReadTriples(lines)
  {
    var triples: seq<Triple3> := [];
    ghost var ps := TripleParses(lines);
    var i := 0;
    while i < |lines|
      invariant 0 <= i <= |lines|
      invariant Collect(ps[..i]) == Some(triples)
    {
      assert ps[..i + 1][..i] == ps[..i];
      var p := ReadTripleLine(lines[i]);
      assert p == ps[i];
      if p.Crash? {
        CollectFailureSticks(ps, i + 1);
        return None;
      } else if p.Keep? {
        triples := triples + [p.triple];
      }
      i := i + 1;
    }
    assert ps[..i] == ps;
    result := Some(triples);
  }

  /** The triples read are exactly the kept lines, in file order. */
  lemma {:induction false} CollectKeepsInOrder(ps: seq<TripleParse>)
    requires Collect(ps).Some?
    ensures Crash !in ps
    ensures Collect(ps).value == Kept(ps)
  {
    if ps != [] {
      var n := |ps| - 1;
      CollectKeepsInOrder(ps[..n]);
      assert ps == ps[..n] + [ps[n]];
      KeptAppend(ps[..n], ps[n]);
    }
  }

  /** The kept triples of a sequence of parsed lines, in order. */
  function Kept(ps: seq<TripleParse>): seq<Triple3>
  {
    if ps == [] then []
    else (if ps[0].Keep? then [ps[0].triple] else []) + Kept(ps[1..])
  }

  lemma {:induction false} KeptAppend(ps: seq<TripleParse>, p: TripleParse)
    ensures Kept(ps + [p]) == Kept(ps) + (if p.Keep? then [p.triple] else [])
  {
    if ps != [] {
      assert (ps + [p])[1..] == ps[1..] + [p];
      KeptAppend(ps[1..], p);
    }
  }

  // ---------------------------------------------------------------------------
  // Comparison
  // ---------------------------------------------------------------------------

  /** The Wikipedia triples, in their order and with their repeats, that also occur in the Wikidata list. */
  function Common(wp: seq<Triple3>, wd: seq<Triple3>): seq<Triple3>
  {
    if wp == [] then []
    else Common(wp[..|wp| - 1], wd) + (if wp[|wp| - 1] in wd then [wp[|wp| - 1]] else [])
  }

  /** Lines 40-44: the comparison loop. */
  method CompareTriples(wp: seq<Triple3>, wd: seq<Triple3>) returns (common: seq<Triple3>)
    ensures common == Common(wp, wd)
  {
    common := [];
    for i := 0 to |wp|
      invariant common == Common(wp[..i], wd)
    {
      assert wp[..i + 1][..i] == wp[..i];
      if wp[i] in wd {
        common := common + [wp[i]];
      }
    }
    assert wp[..|wp|] == wp;
  }

  /**
   * A triple occurs in the result as often as in the Wikipedia list when it
   * occurs in the Wikidata list, and not at all otherwise.
   */
  lemma {:induction false} CommonCounts(wp: seq<Triple3>, wd: seq<Triple3>, x: Triple3)
    ensures multiset(Common(wp, wd))[x] == if x in wd then multiset(wp)[x] else 0
  {
    if wp != [] {
      var n := |wp| - 1;
      CommonCounts(wp[..n], wd, x);
      assert wp == wp[..n] + [wp[n]];
    }
  }

  /** A triple is in the result exactly when it is in both lists. */
  lemma CommonMembership(wp: seq<Triple3>, wd: seq<Triple3>, x: Triple3)
    ensures x in Common(wp, wd) <==> x in wp && x in wd
  {
    CommonCounts(wp, wd, x);
  }

  /** An empty Wikidata list leaves nothing in common. */
  lemma CommonWithEmpty(wp: seq<Triple3>)
    ensures Common(wp, []) == []
  {
    var r := Common(wp, []);
    if r != [] {
      CommonMembership(wp, [], r[0]);
    }
  }

  /**
   * The comparison works triple by triple in Wikipedia order: comparing a
   * concatenation gives the concatenation of the results.
   */
  lemma {:induction false} CommonConcat(a: seq<Triple3>, b: seq<Triple3>, wd: seq<Triple3>)
    ensures Common(a + b, wd) == Common(a, wd) + Common(b, wd)
    decreases |b|
  {
    if b == [] {
      assert a + b == a;
    } else {
      var n := |b| - 1;
      CommonConcat(a, b[..n], wd);
      assert (a + b)[..|a + b| - 1] == a + b[..n];
    }
  }

  /** Every Wikipedia triple that Wikidata also has is kept, so the comparison is then the identity. */
  lemma {:induction false} CommonAllShared(wp: seq<Triple3>, wd: seq<Triple3>)
    requires forall x | x in wp :: x in wd
    ensures Common(wp, wd) == wp
  {
    if wp != [] {
      var n := |wp| - 1;
      assert forall x | x in wp[..n] :: x in wp;
      CommonAllShared(wp[..n], wd);
      assert wp[n] in wp;
    }
  }

  // ---------------------------------------------------------------------------
  // Reading classifier output and the saved format
  // ---------------------------------------------------------------------------

  /** No upper-case letter in `s`. */
  predicate LowerCase(s: string)
  {
    forall c :: c in s ==> !IsUpper(c)
  }

  /** A classified line over lower-case names is unchanged by lower-casing. */
  lemma FormatLineLowerCase(t: Classifier.Triple)
    requires LowerCase(t.sub) && LowerCase(t.rel) && LowerCase(t.obj)
    ensures Lower(Classifier.FormatLine(t)) == Classifier.FormatLine(t)
  {
    Classifier.TypeNameChars(t.subType, t.relType);
    Classifier.TypeNameChars(t.objType, t.relType);
    LowerNoUpper(Classifier.FormatLine(t));
  }

  /**
   * A classified line over separable lower-case names reads back as its
   * subject, relation type and object: the relation phrase itself is not
   * compared.
   */
  lemma ReadClassifiedTriple(t: Classifier.Triple)
    requires Classifier.Separable(t.sub) && Classifier.Separable(t.rel) && Classifier.Separable(t.obj)
    requires LowerCase(t.sub) && LowerCase(t.rel) && LowerCase(t.obj)
    ensures ReadTripleLine(Classifier.FormatLine(t)) == Keep((t.sub, Classifier.RelationTypeName(t.relType), t.obj))
  {
    FormatLineLowerCase(t);
    Classifier.FormatLineSplit(t);
    Classifier.SubjectPieceSplit(t);
    Classifier.ObjectPieceSplitType(t);
    Classifier.ObjectPieceSplitRelation(t);
    Classifier.PieceSlices(t);
  }

  /** Line 55: one saved common triple. */
  function SaveLine(t: Triple3): string
  {
    "'" + t.0 + "'  '" + t.1 + "', '" + t.2 + "' \n"
  }

  /** The part of a saved line before its only ", ". */
  function SavedHead(t: Triple3): string
  {
    "'" + t.0 + ("'  " + ("'" + t.1 + "'"))
  }

  lemma SaveLineShape(t: Triple3)
    ensures SaveLine(t) == SavedHead(t) + ", " + ("'" + t.2 + "' \n")
  {
  }

  lemma SavedHeadClosed(t: Triple3)
    requires !Contains(t.0, ", ") && !Contains(t.1, ", ")
    ensures ClosedBefore(SavedHead(t), ", ")
  {
    var sep := ", ";
    NotContainsByChar("'", sep, ',');
    NotContainsByChar("'  ", sep, ',');
    Classifier.QuotedFree(t.1, "'", sep);
    NotContainsConcat("'  ", "'" + t.1 + "'", sep);
    Classifier.QuotedFree(t.0, "'  " + ("'" + t.1 + "'"), sep);
  }

  lemma SavedTailFree(t: Triple3)
    requires !Contains(t.2, ", ")
    ensures !Contains("'" + t.2 + "' \n", ", ")
  {
    NotContainsByChar("' \n", ", ", ',');
    Classifier.QuotedFree(t.2, "' \n", ", ");
  }

  lemma SaveLineSplit(t: Triple3)
    requires !Contains(t.0, ", ") && !Contains(t.1, ", ") && !Contains(t.2, ", ")
    ensures |Split(SaveLine(t), ", ")| == 2
  {
    SavedHeadClosed(t);
    SavedTailFree(t);
    SplitSingle("'" + t.2 + "' \n", ", ");
    SplitCons(SavedHead(t), ", ", "'" + t.2 + "' \n");
    SaveLineShape(t);
  }

  lemma SaveLineLowerCase(t: Triple3)
    requires LowerCase(t.0) && LowerCase(t.1) && LowerCase(t.2)
    ensures Lower(SaveLine(t)) == SaveLine(t)
  {
    LowerNoUpper(SaveLine(t));
  }

  /**
   * The saved format has a single ", " between subject and relation and
   * object, so a saved file of lower-case triples does not read back as
   * triples: every line is skipped.
   */
  lemma SavedLineSkipped(t: Triple3)
    requires !Contains(t.0, ", ") && !Contains(t.1, ", ") && !Contains(t.2, ", ")
    requires LowerCase(t.0) && LowerCase(t.1) && LowerCase(t.2)
    ensures ReadTripleLine(SaveLine(t)) == Skip
  {
    SaveLineSplit(t);
    SaveLineLowerCase(t);
  }
}
