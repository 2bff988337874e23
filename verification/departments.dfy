/** Departments: parent links must stay a forest. */
module Departments {
  import opened Text

  datatype Department = Department(id: string, code: string, parentID: string)

  type Directory = map<string, Department>

  // Forests.

  type Rank = map<string, nat>

  function RankOf(rank: Rank, id: string): nat {
    if id in rank then rank[id] else 0
  }

  /** Parents rank strictly below their children. */
  ghost predicate Ranked(d: Directory, rank: Rank) {
    forall id :: id in d && d[id].parentID != "" ==> RankOf(rank, d[id].parentID) < RankOf(rank, id)
  }

  /** No cycle: links can be ranked. */
  ghost predicate Acyclic(d: Directory) {
    exists rank :: Ranked(d, rank)
  }

  ghost predicate NoDangling(d: Directory) {
    "" !in d && forall id :: id in d && d[id].parentID != "" ==> d[id].parentID in d
  }

  ghost predicate Forest(d: Directory) {
    Acyclic(d) && NoDangling(d)
  }

  /** `top` is `id` or one of its ancestors. */
  ghost predicate Under(d: Directory, rank: Rank, id: string, top: string)
    requires Ranked(d, rank)
    decreases RankOf(rank, id)
  {
    id == top || (id in d && d[id].parentID != "" && Under(d, rank, d[id].parentID, top))
  }

  // The check of a new parent.

  datatype Verdict = ParentOk | OwnParent | ParentMissing | WouldCycle

  /** What the check must say: a department that is not below the changed one. */
  ghost function ParentVerdict(d: Directory, rank: Rank, current: string, parent: string): Verdict
    requires Ranked(d, rank)
  {
    if parent == "" then ParentOk
    else if current != "" && parent == current then OwnParent
    else if parent !in d then ParentMissing
    else if current != "" && Under(d, rank, parent, current) then WouldCycle
    else ParentOk
  }

  /** Walks up from the new parent. It ends because the links are acyclic. */
  method ValidateParent(d: Directory, current: string, parentID: string, ghost rank: Rank) returns (verdict: Verdict)
    requires Ranked(d, rank) && NoDangling(d)
    ensures verdict == ParentVerdict(d, rank, current, Trim(parentID))
  {
    var parent := Trim(parentID);
    if parent == "" { return ParentOk; }
    if current != "" && parent == current { return OwnParent; }
    if parent !in d { return ParentMissing; }
    var cursor := parent;
    while cursor != ""
      invariant cursor != "" ==> cursor in d && cursor != current
      invariant current != "" ==>
                  (Under(d, rank, parent, current) <==> cursor != "" && Under(d, rank, cursor, current))
      decreases cursor != "", RankOf(rank, cursor)
    {
      var up := d[cursor].parentID;
      if current != "" && up == current { return WouldCycle; }
      cursor := up;
    }
    return ParentOk;
  }

  // Accepting exactly the changes that keep the forest.

  function Reparented(d: Directory, department: Department): Directory {
    d[department.id := department]
  }

  /** A rank that puts the changed department and everything below it above the new parent. */
  ghost function Lifted(d: Directory, rank: Rank, current: string, parent: string): Rank
    requires Ranked(d, rank)
  {
    map id | id in d :: RankOf(rank, id) + if Under(d, rank, id, current) then RankOf(rank, parent) + 1 else 0
  }

  lemma {:induction false} AcceptedStaysAcyclic(d: Directory, rank: Rank, department: Department)
    requires Ranked(d, rank) && NoDangling(d) && department.id in d
    requires ParentVerdict(d, rank, department.id, department.parentID) == ParentOk
    ensures Ranked(Reparented(d, department), Lifted(d, rank, department.id, department.parentID))
  {}

  /** Along the old links, the changed department stays below nothing that is under it. */
  lemma {:induction false} UnderRanksAbove(d: Directory, rank: Rank, department: Department, id: string, newer: Rank)
    requires Ranked(d, rank) && Ranked(Reparented(d, department), newer) && Under(d, rank, id, department.id)
    ensures RankOf(newer, department.id) <= RankOf(newer, id)
    decreases RankOf(rank, id)
  {
    if id != department.id {
      UnderRanksAbove(d, rank, department, d[id].parentID, newer);
      assert Reparented(d, department)[id].parentID == d[id].parentID;
    }
  }

  /** An update is accepted exactly when the directory stays a forest. */
  lemma {:induction false} UpdateAcceptedIffForest(d: Directory, rank: Rank, department: Department)
    requires Ranked(d, rank) && NoDangling(d) && department.id in d
    ensures ParentVerdict(d, rank, department.id, department.parentID) == ParentOk <==> Forest(Reparented(d, department))
  {
    var next, parent := Reparented(d, department), department.parentID;
    if ParentVerdict(d, rank, department.id, parent) == ParentOk {
      AcceptedStaysAcyclic(d, rank, department);
    } else if Forest(next) {
      var newer :| Ranked(next, newer);
      assert next[department.id].parentID == parent;
      if parent == department.id || Under(d, rank, parent, department.id) {
        UnderRanksAbove(d, rank, department, parent, newer);
      }
      assert false;
    }
  }

  /** What each refusal of an update says: its own parent, a parent that would dangle, or links that would run in a circle. */
  lemma {:induction false} RefusalsTellWhy(d: Directory, rank: Rank, department: Department)
    requires Ranked(d, rank) && NoDangling(d) && department.id in d
    ensures var verdict, next := ParentVerdict(d, rank, department.id, department.parentID), Reparented(d, department);
            && (verdict == OwnParent <==> department.parentID == department.id)
            && (verdict == ParentMissing <==> !NoDangling(next))
            && (verdict == WouldCycle <==> department.parentID != department.id && NoDangling(next) && !Acyclic(next))
  {
    var next := Reparented(d, department);
    UpdateAcceptedIffForest(d, rank, department);
    if department.parentID != "" && department.parentID !in d {
      assert next[department.id].parentID !in next;
    } else {
      forall id | id in next && next[id].parentID != "" ensures next[id].parentID in next {
        if id != department.id { assert d[id].parentID in d; }
      }
    }
  }

  /** A new department under an existing one, or under none, keeps the forest; any other parent would dangle. */
  lemma {:induction false} CreateAcceptedIffForest(d: Directory, rank: Rank, department: Department)
    requires Ranked(d, rank) && NoDangling(d) && department.id !in d && department.id != "" && department.parentID != department.id
    ensures ParentVerdict(d, rank, "", department.parentID) == ParentOk <==> Forest(Reparented(d, department))
  {
    var next := Reparented(d, department);
    if ParentVerdict(d, rank, "", department.parentID) == ParentOk {
      var newer := rank[department.id := RankOf(rank, department.parentID) + 1];
      forall id | id in next && next[id].parentID != "" ensures RankOf(newer, next[id].parentID) < RankOf(newer, id) {
        if id != department.id { assert d[id].parentID in d; }
      }
      assert Ranked(next, newer);
    } else {
      assert next[department.id].parentID == department.parentID;
    }
  }

  // The directory as code.

  ghost predicate CodesUnique(d: Directory) {
    forall a, b :: a in d && b in d && a != b ==> d[a].code != d[b].code
  }

  ghost predicate Valid(d: Directory) {
    Forest(d) && CodesUnique(d) && forall id :: id in d ==> d[id].id == id
  }

  class DepartmentService {
    var departments: Directory

    constructor ()
      ensures departments == map[] && Valid(departments)
    {
      departments := map[];
      new;
      assert Ranked(departments, map[]);
    }

    method CodeTaken(current: string, code: string) returns (taken: bool)
      ensures taken <==> exists id :: id in departments && departments[id].code == code && departments[id].id != current
    {
      var left := departments.Keys;
      while left != {}
        invariant left <= departments.Keys
        invariant forall id :: id in departments && id !in left ==> departments[id].code != code || departments[id].id == current
        decreases |left|
      {
        var id :| id in left;
        if departments[id].code == code && departments[id].id != current { return true; }
        left := left - {id};
      }
      taken := false;
    }

    /** Creates a department under a fresh id. */
    method Create(freshID: string, code: string, parentID: string) returns (ok: bool)
      requires Valid(departments) && freshID !in departments && freshID != "" && Trim(parentID) != freshID
      modifies this
      ensures Valid(departments)
      ensures var department := Department(freshID, code, Trim(parentID));
              && ok == old(Forest(Reparented(departments, department)) && CodesUnique(Reparented(departments, department)))
              && departments == if ok then old(Reparented(departments, department)) else old(departments)
    {
      ghost var rank :| Ranked(departments, rank);
      var department := Department(freshID, code, Trim(parentID));
      CreateAcceptedIffForest(departments, rank, department);
      AddedCode(departments, department);
      var verdict := ValidateParent(departments, "", parentID, rank);
      if verdict != ParentOk { return false; }
      var taken := CodeTaken("", code);
      if taken { return false; }
      departments := departments[freshID := department];
      ok := true;
    }

    method Update(id: string, code: string, parentID: string) returns (ok: bool)
      requires Valid(departments) && Trim(id) != ""
      modifies this
      ensures Valid(departments)
      ensures var department := Department(Trim(id), code, Trim(parentID));
              && ok == (Trim(id) in old(departments) && old(Forest(Reparented(departments, department)) && CodesUnique(Reparented(departments, department))))
              && departments == if ok then old(Reparented(departments, department)) else old(departments)
    {
      var current := Trim(id);
      if current !in departments { return false; }
      ghost var rank :| Ranked(departments, rank);
      var department := Department(current, code, Trim(parentID));
      UpdateAcceptedIffForest(departments, rank, department);
      AddedCode(departments, department);
      var verdict := ValidateParent(departments, current, parentID, rank);
      if verdict != ParentOk { return false; }
      var taken := CodeTaken(current, code);
      if taken { return false; }
      departments := departments[current := department];
      ok := true;
    }
  }

  lemma {:induction false} AddedCode(d: Directory, department: Department)
    requires CodesUnique(d) && (forall id :: id in d ==> d[id].id == id)
    ensures CodesUnique(Reparented(d, department))
            <==> !exists id :: id in d && d[id].code == department.code && d[id].id != department.id
  {
    var next := Reparented(d, department);
    if id :| id in d && d[id].code == department.code && d[id].id != department.id {
      assert next[id].code == next[department.id].code;
    }
  }
}
