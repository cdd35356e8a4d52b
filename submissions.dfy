/** The client's submission log: a list of submissions kept newest first,
    extended only by submissions whose id is new, and searched by id. */
module Submissions {
  import opened Types

  /** One chosen haircut with its rank in the client's selection. */
  datatype Selection = Selection(haircutId: string, rank: int)

  /** A submitted consultation. `date` is the ISO text of the submission time. */
  datatype Submission = Submission(
    id: string,
    name: string,
    email: string,
    phone: string,
    status: string,
    date: string,
    hairType: string,
    hairLength: string,
    concerns: string,
    change: string,
    lifestyle: string,
    time: string,
    notes: string,
    selections: seq<Selection>)

  predicate HasId(subs: seq<Submission>, id: string)
  {
    exists k :: 0 <= k < |subs| && subs[k].id == id
  }

  /** No two submissions share an id. */
  predicate UniqueIds(subs: seq<Submission>)
  {
    forall i, j :: 0 <= i < j < |subs| ==> subs[i].id != subs[j].id
  }

  /** Position of the first submission with the given id, `|subs|` when none. */
  function FirstWithId(subs: seq<Submission>, id: string): (i: nat)
    ensures i <= |subs|
    ensures forall k :: 0 <= k < i ==> subs[k].id != id
    ensures i < |subs| ==> subs[i].id == id
    ensures i == |subs| <==> !HasId(subs, id)
  {
    if subs == [] then 0
    else if subs[0].id == id then 0
    else 1 + FirstWithId(subs[1..], id)
  }

  /** `find(s => s.id === id) ?? null`: the first submission with that id,
      or nothing when there is none. */
  function FindById(subs: seq<Submission>, id: string): (r: Option<Submission>)
    ensures r.None? <==> !HasId(subs, id)
    ensures r.Some? ==> r.value.id == id && r.value == subs[FirstWithId(subs, id)]
  {
    var i := FirstWithId(subs, id);
    if i < |subs| then Some(subs[i]) else None
  }

  /** The list `addSubmission` leaves behind: unchanged when the id is
      already present, otherwise the new submission in front. */
  function Added(existing: seq<Submission>, sub: Submission): (r: seq<Submission>)
    ensures HasId(r, sub.id)
    ensures |r| == if HasId(existing, sub.id) then |existing| else |existing| + 1
    ensures r[|r| - |existing|..] == existing
  {
    if HasId(existing, sub.id) then existing
    else
      assert ([sub] + existing)[0].id == sub.id;
      [sub] + existing
  }

  /** A duplicate id changes nothing; a new id grows the list by one, newest
      first, with the older entries after it in their order. */
  lemma AddedShape(existing: seq<Submission>, sub: Submission)
    ensures HasId(existing, sub.id) ==> Added(existing, sub) == existing
    ensures !HasId(existing, sub.id)
            ==> (|Added(existing, sub)| == |existing| + 1
                 && Added(existing, sub)[0] == sub && Added(existing, sub)[1..] == existing)
  {
  }

  /** Adding keeps ids unique. */
  lemma AddedKeepsUniqueIds(existing: seq<Submission>, sub: Submission)
    requires UniqueIds(existing)
    ensures UniqueIds(Added(existing, sub))
  {
    if !HasId(existing, sub.id) {
      var r := [sub] + existing;
      forall i, j | 0 <= i < j < |r| ensures r[i].id != r[j].id {
        if i == 0 {
          assert r[j] == existing[j - 1];
        } else {
          assert r[i] == existing[i - 1] && r[j] == existing[j - 1];
        }
      }
    }
  }

  /** After adding, looking up the new id finds a submission with that id;
      when the id was new, it finds the added submission itself. */
  lemma FindAfterAdd(existing: seq<Submission>, sub: Submission)
    ensures FindById(Added(existing, sub), sub.id).Some?
    ensures FindById(Added(existing, sub), sub.id).value.id == sub.id
    ensures !HasId(existing, sub.id) ==> FindById(Added(existing, sub), sub.id) == Some(sub)
  {
    if !HasId(existing, sub.id) {
      assert ([sub] + existing)[0] == sub;
    }
  }

  /** Adding does not change what any other id finds. */
  lemma FindOtherAfterAdd(existing: seq<Submission>, sub: Submission, id: string)
    requires id != sub.id
    ensures FindById(Added(existing, sub), id) == FindById(existing, id)
  {
    if !HasId(existing, sub.id) {
      var r := [sub] + existing;
      assert r[1..] == existing;
      assert FirstWithId(r, id) == 1 + FirstWithId(existing, id);
      assert HasId(r, id) <==> HasId(existing, id) by {
        if HasId(r, id) {
          var k :| 0 <= k < |r| && r[k].id == id;
          assert existing[k - 1].id == id;
        }
        if HasId(existing, id) {
          var k :| 0 <= k < |existing| && existing[k].id == id;
          assert r[k + 1].id == id;
        }
      }
    }
  }

  /** Adding the same submission twice is the same as adding it once. */
  lemma AddedIdempotent(existing: seq<Submission>, sub: Submission)
    ensures Added(Added(existing, sub), sub) == Added(existing, sub)
  {
    if !HasId(existing, sub.id) {
      assert ([sub] + existing)[0].id == sub.id;
    }
  }

  /** The stored log. `stored` is `None` when nothing readable is stored,
      which reads as the empty list. */
  class SubmissionLog {
    var stored: Option<seq<Submission>>

    /** `getSubmissions`: the stored list, or the empty list when absent. */
    function Submissions(): (subs: seq<Submission>)
      reads this
      ensures stored.None? ==> subs == []
      ensures stored.Some? ==> subs == stored.value
    {
      if stored.Some? then stored.value else []
    }

    constructor ()
      ensures stored == None
      ensures Submissions() == []
    {
      stored := None;
    }

    /** `addSubmission`: a duplicate id leaves storage untouched; otherwise
        the submission is put first and the list written back. */
    method AddSubmission(sub: Submission)
      modifies this
      ensures Submissions() == Added(old(Submissions()), sub)
      ensures HasId(old(Submissions()), sub.id) ==> stored == old(stored)
      ensures !HasId(old(Submissions()), sub.id) ==> stored == Some([sub] + old(Submissions()))
    {
      var existing := Submissions();
      if exists k :: 0 <= k < |existing| && existing[k].id == sub.id {
        return;
      }
      stored := Some([sub] + existing);
    }

    /** `getSubmissionById`: a lookup in the current list. */
    function GetSubmissionById(id: string): (r: Option<Submission>)
      reads this
      ensures r.None? <==> forall k :: 0 <= k < |Submissions()| ==> Submissions()[k].id != id
      ensures r.Some? ==> r.value.id == id && r.value in Submissions()
      ensures r.Some? ==> r.value == Submissions()[FirstWithId(Submissions(), id)]
    {
      FindById(Submissions(), id)
    }
  }
}
