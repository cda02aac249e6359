/** The chatbot page's questionnaire: the question lists of the selected diseases joined
    in selection order and de-duplicated by `key` through a JavaScript `Map`. */
module ChatbotQuestions {

  import opened Basics
  import opened Diseases

  /** `catalogue[name]?.questions || []`. */
  function QuestionsOf(catalogue: Catalogue, name: string): seq<Question> {
    if name in catalogue then catalogue[name].questions else []
  }

  /** `selected.flatMap(name => catalogue[name]?.questions || [])`. */
  function Combined(catalogue: Catalogue, selected: seq<string>): (qs: seq<Question>)
  {
    if selected == [] then [] else QuestionsOf(catalogue, selected[0]) + Combined(catalogue, selected[1..])
  }

  /** A question is in the joined list exactly when a known selected disease asks it. */
  lemma {:induction false} CombinedMembers(catalogue: Catalogue, selected: seq<string>, q: Question)
    ensures q in Combined(catalogue, selected) <==>
      exists i :: 0 <= i < |selected| && selected[i] in catalogue && q in catalogue[selected[i]].questions
  {
    if selected != [] {
      CombinedMembers(catalogue, selected[1..], q);
      assert forall i :: 1 <= i < |selected| ==> selected[i] == selected[1..][i - 1];
      assert forall i :: 0 <= i < |selected| - 1 ==> selected[1..][i] == selected[i + 1];
    }
  }

  lemma {:induction false} CombinedAppend(catalogue: Catalogue, a: seq<string>, b: seq<string>)
    ensures Combined(catalogue, a + b) == Combined(catalogue, a) + Combined(catalogue, b)
  {
    if a == [] {
      assert a + b == b;
    } else {
      assert (a + b)[0] == a[0];
      assert (a + b)[1..] == a[1..] + b;
      CombinedAppend(catalogue, a[1..], b);
    }
  }

  /** An unknown disease name contributes no questions. */
  lemma UnknownDiseaseAsksNothing(catalogue: Catalogue, a: seq<string>, name: string, b: seq<string>)
    requires name !in catalogue
    ensures Combined(catalogue, a + [name] + b) == Combined(catalogue, a + b)
  {
    CombinedAppend(catalogue, a + [name], b);
    CombinedAppend(catalogue, a, [name]);
    CombinedAppend(catalogue, a, b);
    assert Combined(catalogue, [name]) == QuestionsOf(catalogue, name) + Combined(catalogue, []);
  }

  /** The position of the first question with key `k`, or `|qs|` when there is none. */
  function KeyIndex(qs: seq<Question>, k: string): (i: nat)
    ensures i <= |qs|
    ensures i < |qs| ==> qs[i].key == k
    ensures forall j :: 0 <= j < i ==> qs[j].key != k
  {
    if qs == [] then 0 else if qs[0].key == k then 0 else 1 + KeyIndex(qs[1..], k)
  }

  /** The entry a `Map` keyed by question key holds for `k`. */
  function Entry(qs: seq<Question>, k: string): Option<Question> {
    var i := KeyIndex(qs, k);
    if i < |qs| then Some(qs[i]) else None
  }

  /** The last question of `qs` with key `k`: the one a `Map` built from `qs` keeps. */
  function LastWithKey(qs: seq<Question>, k: string): (o: Option<Question>)
    ensures o.Some? ==> o.value in qs && o.value.key == k
    ensures o.None? <==> forall i :: 0 <= i < |qs| ==> qs[i].key != k
  {
    if qs == [] then None
    else if qs[|qs| - 1].key == k then Some(qs[|qs| - 1])
    else
      var o := LastWithKey(qs[..|qs| - 1], k);
      assert forall i :: 0 <= i < |qs| - 1 ==> qs[..|qs| - 1][i] == qs[i];
      o
  }

  /** `map.set(q.key, q)`: a key already present keeps its position and takes the new
      question; a new key is placed last. */
  function Insert(acc: seq<Question>, q: Question): seq<Question> {
    var j := KeyIndex(acc, q.key);
    if j < |acc| then acc[j := q] else acc + [q]
  }

  /** `Array.from(new Map(qs.map(q => [q.key, q])).values())`. */
  function Dedup(qs: seq<Question>): seq<Question> {
    if qs == [] then [] else Insert(Dedup(qs[..|qs| - 1]), qs[|qs| - 1])
  }

  /** The questions the chatbot asks for a selection. */
  function MergeQuestions(catalogue: Catalogue, selected: seq<string>): seq<Question> {
    Dedup(Combined(catalogue, selected))
  }

  ghost predicate DistinctKeys(qs: seq<Question>) {
    forall i, j :: 0 <= i < j < |qs| ==> qs[i].key != qs[j].key
  }

  /** For every key, the merged list holds what a `Map` built from `qs` holds. */
  ghost predicate HoldsLastOfEachKey(r: seq<Question>, qs: seq<Question>) {
    forall k :: Entry(r, k) == LastWithKey(qs, k)
  }

  /** The merged keys come in the order of their first occurrence in `qs`. */
  ghost predicate FirstOccurrenceOrder(r: seq<Question>, qs: seq<Question>) {
    forall i, j :: 0 <= i < j < |r| ==> KeyIndex(qs, r[i].key) < KeyIndex(qs, r[j].key)
  }

  lemma KeyIndexSnoc(qs: seq<Question>, q: Question, k: string)
    ensures KeyIndex(qs + [q], k) ==
      if KeyIndex(qs, k) < |qs| then KeyIndex(qs, k) else if q.key == k then |qs| else |qs| + 1
  {
    var s := qs + [q];
    var i := KeyIndex(qs, k);
    var n := KeyIndex(s, k);
    assert forall j :: 0 <= j < |qs| ==> s[j] == qs[j];
    if i < |qs| {
      assert s[i].key == k;
    } else if q.key == k {
      assert s[|qs|].key == k;
    }
  }

  /** Entries depend only on the sequence of keys. */
  lemma KeyIndexSameKeys(a: seq<Question>, b: seq<Question>, k: string)
    requires |a| == |b|
    requires forall i :: 0 <= i < |a| ==> a[i].key == b[i].key
    ensures KeyIndex(a, k) == KeyIndex(b, k)
  {
  }

  /** A key known to a `Map` built from `qs` occurs in `qs`. */
  lemma LastWithKeyOccurs(qs: seq<Question>, k: string)
    ensures LastWithKey(qs, k).Some? <==> KeyIndex(qs, k) < |qs|
  {
    var i := KeyIndex(qs, k);
    if i < |qs| {
      assert qs[i].key == k;
    }
  }

  /** A `map.set` changes the entry of its own key only. */
  lemma LastWithKeySnoc(p: seq<Question>, q: Question, k: string)
    ensures LastWithKey(p + [q], k) == if k == q.key then Some(q) else LastWithKey(p, k)
  {
    assert (p + [q])[..|p + [q]| - 1] == p;
  }

  /** Every key already merged occurs in `p`, so appending to `p` keeps its first position. */
  lemma MergedKeyKeepsPosition(r: seq<Question>, p: seq<Question>, q: Question, i: nat)
    requires HoldsLastOfEachKey(r, p)
    requires i < |r|
    ensures KeyIndex(p + [q], r[i].key) == KeyIndex(p, r[i].key) < |p|
  {
    var k := r[i].key;
    assert Entry(r, k).Some? by {
      assert KeyIndex(r, k) <= i;
    }
    LastWithKeyOccurs(p, k);
    KeyIndexSnoc(p, q, k);
  }

  /** `map.set` never gives two entries the same key. */
  lemma InsertDistinct(r: seq<Question>, q: Question)
    requires DistinctKeys(r)
    ensures DistinctKeys(Insert(r, q))
  {
    var j := KeyIndex(r, q.key);
    if j < |r| {
      assert forall i :: 0 <= i < |r| ==> Insert(r, q)[i].key == r[i].key;
    } else {
      assert forall i :: 0 <= i < |r| ==> Insert(r, q)[i] == r[i];
    }
  }

  /** After `map.set(q.key, q)` the entry for `q.key` is `q` and every other entry stays. */
  lemma InsertEntries(r: seq<Question>, p: seq<Question>, q: Question)
    requires HoldsLastOfEachKey(r, p)
    ensures HoldsLastOfEachKey(Insert(r, q), p + [q])
  {
    var r' := Insert(r, q);
    var j := KeyIndex(r, q.key);
    if j < |r| {
      assert forall i :: 0 <= i < |r| ==> r'[i].key == r[i].key;
      forall k
        ensures Entry(r', k) == LastWithKey(p + [q], k)
      {
        KeyIndexSameKeys(r', r, k);
        LastWithKeySnoc(p, q, k);
      }
    } else {
      forall k
        ensures Entry(r', k) == LastWithKey(p + [q], k)
      {
        KeyIndexSnoc(r, q, k);
        LastWithKeySnoc(p, q, k);
      }
    }
  }

  /** `map.set` keeps keys in the order they were first inserted. */
  lemma InsertOrder(r: seq<Question>, p: seq<Question>, q: Question)
    requires HoldsLastOfEachKey(r, p) && FirstOccurrenceOrder(r, p)
    ensures FirstOccurrenceOrder(Insert(r, q), p + [q])
  {
    var s := p + [q];
    var r' := Insert(r, q);
    var j := KeyIndex(r, q.key);
    forall i | 0 <= i < |r|
      ensures KeyIndex(s, r[i].key) == KeyIndex(p, r[i].key) < |p|
    {
      MergedKeyKeepsPosition(r, p, q, i);
    }
    if j < |r| {
      assert forall i :: 0 <= i < |r| ==> r'[i].key == r[i].key;
    } else {
      assert Entry(r, q.key) == None;
      LastWithKeyOccurs(p, q.key);
      KeyIndexSnoc(p, q, q.key);
      assert forall i :: 0 <= i < |r| ==> r'[i] == r[i];
      assert r'[|r|] == q;
    }
  }

  lemma InsertStep(r: seq<Question>, p: seq<Question>, q: Question)
    requires DistinctKeys(r) && HoldsLastOfEachKey(r, p) && FirstOccurrenceOrder(r, p)
    ensures DistinctKeys(Insert(r, q))
    ensures HoldsLastOfEachKey(Insert(r, q), p + [q])
    ensures FirstOccurrenceOrder(Insert(r, q), p + [q])
  {
    InsertDistinct(r, q);
    InsertEntries(r, p, q);
    InsertOrder(r, p, q);
  }

  /** The merge behaves as the `Map` it is built with: each key at most once, every
      joined key present with the question met last, keys ordered by first occurrence. */
  lemma {:induction false} DedupIsMap(qs: seq<Question>)
    ensures DistinctKeys(Dedup(qs))
    ensures HoldsLastOfEachKey(Dedup(qs), qs)
    ensures FirstOccurrenceOrder(Dedup(qs), qs)
  {
    if qs != [] {
      var p := qs[..|qs| - 1];
      DedupIsMap(p);
      assert p + [qs[|qs| - 1]] == qs;
      InsertStep(Dedup(p), p, qs[|qs| - 1]);
    }
  }

  /** Every question of every known selected disease is asked under its key, with the
      question object of the last disease that has that key. */
  lemma MergedCoversSelection(catalogue: Catalogue, selected: seq<string>, i: nat, q: Question)
    requires i < |selected| && selected[i] in catalogue && q in catalogue[selected[i]].questions
    ensures Entry(MergeQuestions(catalogue, selected), q.key).Some?
    ensures Entry(MergeQuestions(catalogue, selected), q.key) == LastWithKey(Combined(catalogue, selected), q.key)
  {
    var qs := Combined(catalogue, selected);
    CombinedMembers(catalogue, selected, q);
    DedupIsMap(qs);
    var m :| 0 <= m < |qs| && qs[m] == q;
    assert qs[m].key == q.key;
  }
}
