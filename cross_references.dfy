/**
 * The cross-reference lookups of tutorial.py. Each is a list comprehension
 * over a list of records, keeping the records whose key field equals a name
 * and projecting a value out of each; lines 85, 87 and 89 then take element
 * `[0]` of the result.
 */
module CrossReferences {
  import opened Wrappers

  /** One entry of `properties`: a key and its value. */
  datatype Property = Property(key: string, value: string)

  /** An entry of `uniProtKBCrossReferences`. */
  datatype CrossReference = CrossReference(database: string, id: string, properties: seq<Property>)

  /** An entry of `comments`; `texts` holds the `value` of each of its texts. */
  datatype Comment = Comment(commentType: string, texts: seq<string>)

  /** A value, or Python's IndexError from taking `[0]` of an empty list. */
  datatype Outcome<+T> = Ok(value: T) | IndexError

  /**
   * `[project(x) for x in xs if key(x) == name]`. The projection is evaluated
   * for every kept record; `None` stands for the IndexError it raises on one,
   * and that aborts the whole comprehension.
   */
  function Select<T, U>(xs: seq<T>, key: T -> string, name: string, project: T -> Option<U>): (r: Option<seq<U>>)
    ensures r.Some? <==> forall i :: 0 <= i < |xs| && key(xs[i]) == name ==> project(xs[i]).Some?
    ensures r.Some? ==> |r.value| == CountMatches(xs, key, name) <= |xs|
  {
    if xs == [] then Some([])
    else
      var rest := Select(xs[1..], key, name, project);
      if key(xs[0]) != name then rest
      else match (project(xs[0]), rest)
        case (Some(y), Some(ys)) => Some([y] + ys)
        case _ => None
  }

  /** The number of records whose key is `name`. */
  function CountMatches<T>(xs: seq<T>, key: T -> string, name: string): (n: nat)
    ensures n <= |xs|
  {
    if xs == [] then 0
    else (if key(xs[0]) == name then 1 else 0) + CountMatches(xs[1..], key, name)
  }

  /** The index of the record that is the match number `k` (from 0): it matches, with exactly `k` matches before it. */
  function NthMatch<T>(xs: seq<T>, key: T -> string, name: string, k: nat): (i: nat)
    requires k < CountMatches(xs, key, name)
    ensures i < |xs| && key(xs[i]) == name
    ensures CountMatches(xs[..i], key, name) == k
  {
    if key(xs[0]) == name && k == 0 then
      assert xs[..0] == [];
      0
    else
      var j := NthMatch(xs[1..], key, name, if key(xs[0]) == name then k - 1 else k);
      assert xs[..j + 1][1..] == xs[1..][..j];
      j + 1
  }

  /**
   * A comprehension that succeeds holds one value per matching record, in
   * record order: its element `k` is the projection of match number `k`.
   */
  lemma {:induction false} SelectNth<T, U>(xs: seq<T>, key: T -> string, name: string, project: T -> Option<U>)
    requires Select(xs, key, name, project).Some?
    ensures |Select(xs, key, name, project).value| == CountMatches(xs, key, name)
    ensures forall k :: 0 <= k < CountMatches(xs, key, name) ==>
      Select(xs, key, name, project).value[k] == project(xs[NthMatch(xs, key, name, k)]).value
  {
    if xs != [] {
      SelectNth(xs[1..], key, name, project);
    }
  }

  /** The index of the first record whose key is `name`, or `|xs|` if there is none. */
  function FirstMatch<T>(xs: seq<T>, key: T -> string, name: string): (i: nat)
    ensures i <= |xs|
    ensures forall j :: 0 <= j < i ==> key(xs[j]) != name
    ensures i < |xs| ==> key(xs[i]) == name
  {
    if xs == [] then 0
    else if key(xs[0]) == name then 0
    else 1 + FirstMatch(xs[1..], key, name)
  }

  /** A comprehension that succeeds is empty exactly when no record matches, and otherwise starts with the first match's value. */
  lemma {:induction false} SelectHead<T, U>(xs: seq<T>, key: T -> string, name: string, project: T -> Option<U>)
    requires Select(xs, key, name, project).Some?
    ensures Select(xs, key, name, project).value == [] <==> FirstMatch(xs, key, name) == |xs|
    ensures FirstMatch(xs, key, name) < |xs| ==>
      Select(xs, key, name, project).value[0] == project(xs[FirstMatch(xs, key, name)]).value
  {
    if xs != [] && key(xs[0]) != name {
      SelectHead(xs[1..], key, name, project);
    }
  }

  /** Every value of a comprehension comes from a matching record, and every matching record's value is in it. */
  lemma {:induction false} SelectMembers<T, U>(xs: seq<T>, key: T -> string, name: string, project: T -> Option<U>)
    requires Select(xs, key, name, project).Some?
    ensures forall y :: y in Select(xs, key, name, project).value <==>
      exists i :: 0 <= i < |xs| && key(xs[i]) == name && project(xs[i]) == Some(y)
  {
    if xs != [] {
      SelectMembers(xs[1..], key, name, project);
      forall y ensures (exists i :: 0 <= i < |xs[1..]| && key(xs[1..][i]) == name && project(xs[1..][i]) == Some(y))
                       <==> (exists i :: 1 <= i < |xs| && key(xs[i]) == name && project(xs[i]) == Some(y))
      {
        if exists i :: 1 <= i < |xs| && key(xs[i]) == name && project(xs[i]) == Some(y) {
          var i :| 1 <= i < |xs| && key(xs[i]) == name && project(xs[i]) == Some(y);
          assert xs[1..][i - 1] == xs[i];
        }
      }
    }
  }

  /** Python's `s[0]`. */
  function Head<U>(s: seq<U>): (r: Outcome<U>)
    ensures r.IndexError? <==> |s| == 0
    ensures r.Ok? ==> r.value == s[0]
  {
    if |s| == 0 then IndexError else Ok(s[0])
  }

  function DatabaseOf(x: CrossReference): string { x.database }

  function IdOf(x: CrossReference): Option<string> { Some(x.id) }

  function FirstPropertyValueOf(x: CrossReference): Option<string>
  {
    if |x.properties| > 0 then Some(x.properties[0].value) else None
  }

  function CommentTypeOf(c: Comment): string { c.commentType }

  function FirstTextOf(c: Comment): Option<string>
  {
    if |c.texts| > 0 then Some(c.texts[0]) else None
  }

  /** `[x["id"] for x in refs if x["database"] == name]`: the ids of all matching entries, possibly none. */
  function MatchingIds(refs: seq<CrossReference>, name: string): (ids: seq<string>)
    ensures |ids| == CountMatches(refs, DatabaseOf, name) <= |refs|
    ensures forall k :: 0 <= k < |ids| ==> ids[k] == refs[NthMatch(refs, DatabaseOf, name, k)].id
    ensures ids == [] <==> forall i :: 0 <= i < |refs| ==> refs[i].database != name
    ensures forall v :: v in ids <==> exists i :: 0 <= i < |refs| && refs[i].database == name && refs[i].id == v
  {
    var r := Select(refs, DatabaseOf, name, IdOf);
    SelectHead(refs, DatabaseOf, name, IdOf);
    SelectMembers(refs, DatabaseOf, name, IdOf);
    SelectNth(refs, DatabaseOf, name, IdOf);
    r.value
  }

  /** The id of the first entry of database `name`; IndexError if there is none. */
  function FirstId(refs: seq<CrossReference>, name: string): (r: Outcome<string>)
    ensures r.IndexError? <==> forall i :: 0 <= i < |refs| ==> refs[i].database != name
    ensures r.Ok? ==>
      exists i :: 0 <= i < |refs| && refs[i].database == name && r.value == refs[i].id &&
        forall j :: 0 <= j < i ==> refs[j].database != name
  {
    var ids := Select(refs, DatabaseOf, name, IdOf).value;
    SelectHead(refs, DatabaseOf, name, IdOf);
    var i := FirstMatch(refs, DatabaseOf, name);
    assert i < |refs| ==> refs[i].database == name && ids[0] == refs[i].id;
    Head(ids)
  }

  /**
   * The value of the first property of the first entry of database `name`.
   * IndexError if no entry matches, or if ANY matching entry (not only the
   * first) has no properties, since the comprehension evaluates
   * `properties[0]` for each of them before `[0]` is taken.
   */
  function FirstPropertyValue(refs: seq<CrossReference>, name: string): (r: Outcome<string>)
    ensures r.IndexError? <==>
      || (forall i :: 0 <= i < |refs| ==> refs[i].database != name)
      || (exists i :: 0 <= i < |refs| && refs[i].database == name && refs[i].properties == [])
    ensures r.Ok? ==>
      exists i :: 0 <= i < |refs| && refs[i].database == name &&
        |refs[i].properties| > 0 && r.value == refs[i].properties[0].value &&
        forall j :: 0 <= j < i ==> refs[j].database != name
  {
    match Select(refs, DatabaseOf, name, FirstPropertyValueOf)
    case None =>
      IndexError
    case Some(values) =>
      SelectHead(refs, DatabaseOf, name, FirstPropertyValueOf);
      var i := FirstMatch(refs, DatabaseOf, name);
      assert i < |refs| ==> refs[i].database == name && |refs[i].properties| > 0 && values[0] == refs[i].properties[0].value;
      Head(values)
  }

  /**
   * The first text of the first comment of type `commentType`. IndexError if
   * no comment has that type, or if any comment of that type has no texts.
   */
  function FirstCommentText(comments: seq<Comment>, commentType: string): (r: Outcome<string>)
    ensures r.IndexError? <==>
      || (forall i :: 0 <= i < |comments| ==> comments[i].commentType != commentType)
      || (exists i :: 0 <= i < |comments| && comments[i].commentType == commentType && comments[i].texts == [])
    ensures r.Ok? ==>
      exists i :: 0 <= i < |comments| && comments[i].commentType == commentType &&
        |comments[i].texts| > 0 && r.value == comments[i].texts[0] &&
        forall j :: 0 <= j < i ==> comments[j].commentType != commentType
  {
    match Select(comments, CommentTypeOf, commentType, FirstTextOf)
    case None =>
      IndexError
    case Some(texts) =>
      SelectHead(comments, CommentTypeOf, commentType, FirstTextOf);
      var i := FirstMatch(comments, CommentTypeOf, commentType);
      assert i < |comments| ==> comments[i].commentType == commentType && |comments[i].texts| > 0 && texts[0] == comments[i].texts[0];
      Head(texts)
  }

  /** Line 85: the PANTHER family name, from the first PANTHER cross-reference. */
  function OfficialGeneName(refs: seq<CrossReference>): (r: Outcome<string>)
    ensures r.IndexError? <==>
      || (forall i :: 0 <= i < |refs| ==> refs[i].database != "PANTHER")
      || (exists i :: 0 <= i < |refs| && refs[i].database == "PANTHER" && refs[i].properties == [])
    ensures r.Ok? ==>
      exists i :: 0 <= i < |refs| && refs[i].database == "PANTHER" &&
        |refs[i].properties| > 0 && r.value == refs[i].properties[0].value &&
        forall j :: 0 <= j < i ==> refs[j].database != "PANTHER"
  {
    FirstPropertyValue(refs, "PANTHER")
  }

  /** Line 87: the Ensembl id, read from the first OpenTargets cross-reference. */
  function EnsemblId(refs: seq<CrossReference>): (r: Outcome<string>)
    ensures r.IndexError? <==> forall i :: 0 <= i < |refs| ==> refs[i].database != "OpenTargets"
    ensures r.Ok? ==>
      exists i :: 0 <= i < |refs| && refs[i].database == "OpenTargets" && r.value == refs[i].id &&
        forall j :: 0 <= j < i ==> refs[j].database != "OpenTargets"
  {
    FirstId(refs, "OpenTargets")
  }

  /** Line 89: the sequence-similarity note, the first text of the first SIMILARITY comment. */
  function SequenceSimilarity(comments: seq<Comment>): (r: Outcome<string>)
    ensures r.IndexError? <==>
      || (forall i :: 0 <= i < |comments| ==> comments[i].commentType != "SIMILARITY")
      || (exists i :: 0 <= i < |comments| && comments[i].commentType == "SIMILARITY" && comments[i].texts == [])
    ensures r.Ok? ==>
      exists i :: 0 <= i < |comments| && comments[i].commentType == "SIMILARITY" &&
        |comments[i].texts| > 0 && r.value == comments[i].texts[0] &&
        forall j :: 0 <= j < i ==> comments[j].commentType != "SIMILARITY"
  {
    FirstCommentText(comments, "SIMILARITY")
  }

  /** Line 108: the ids of all GeneID cross-references, one per entry and in list order. */
  function NcbiIds(refs: seq<CrossReference>): (ids: seq<string>)
    ensures |ids| == CountMatches(refs, DatabaseOf, "GeneID")
    ensures forall k :: 0 <= k < |ids| ==> ids[k] == refs[NthMatch(refs, DatabaseOf, "GeneID", k)].id
    ensures ids == [] <==> forall i :: 0 <= i < |refs| ==> refs[i].database != "GeneID"
  {
    MatchingIds(refs, "GeneID")
  }
}
