/** Small vocabulary shared by the other modules. */
module Basics {
  type Id = string

  /** The demo tenant: the version 5 uuid of "root:tenant:blue-jets" in the DNS namespace. */
  const TENANT_ID: Id := "44c2bf31-31d6-56f5-89da-59d0a697d606"

  datatype Option<+T> = None | Some(value: T)

  /** The elements of a sequence, without order or multiplicity. */
  ghost function Elements<T>(s: seq<T>): set<T> {
    set x | x in s
  }

  ghost predicate NoDuplicates<T>(s: seq<T>) {
    forall i, j | 0 <= i < j < |s| :: s[i] != s[j]
  }

  /** The keys carried by the rows of a table read. */
  function KeySet<T>(rows: seq<T>, key: T -> Id): set<Id> {
    set i | 0 <= i < |rows| :: key(rows[i])
  }

  /** Python truthiness of a string: absent and empty are both "". */
  predicate Truthy(s: string) {
    s != ""
  }

  /** Python's `a or b` on strings. */
  function Or(a: string, b: string): string {
    if a != "" then a else b
  }

  function Lookup<K, V>(m: map<K, V>, k: K, default: V): V {
    if k in m then m[k] else default
  }

  lemma KeySetAppend<T>(a: seq<T>, b: seq<T>, key: T -> Id)
    ensures KeySet(a + b, key) == KeySet(a, key) + KeySet(b, key)
  {
    forall x | x in KeySet(a, key) ensures x in KeySet(a + b, key) {
      var i :| 0 <= i < |a| && key(a[i]) == x;
      assert (a + b)[i] == a[i];
    }
    forall x | x in KeySet(b, key) ensures x in KeySet(a + b, key) {
      var i :| 0 <= i < |b| && key(b[i]) == x;
      assert (a + b)[|a| + i] == b[i];
    }
  }

  // ---------------------------------------------------------------- order-preserving selection

  /** `out` is the rows at positions `at`: all that are picked, in order, each once. */
  ghost predicate PicksAt<T>(out: seq<T>, rows: seq<T>, picked: T -> bool, at: seq<nat>) {
    && |at| == |out|
    && (forall k | 0 <= k < |at| :: at[k] < |rows| && out[k] == rows[at[k]] && picked(rows[at[k]]))
    && (forall j, k | 0 <= j < k < |at| :: at[j] < at[k])
    && (forall i | 0 <= i < |rows| && picked(rows[i]) :: i in at)
  }

  /** `out` is exactly the picked rows, in order. */
  ghost predicate Picks<T(!new)>(out: seq<T>, rows: seq<T>, picked: T -> bool) {
    exists at :: PicksAt(out, rows, picked, at)
  }

  lemma PicksNothing<T(!new)>(rows: seq<T>, picked: T -> bool)
    requires forall r | r in rows :: !picked(r)
    ensures Picks([], rows, picked)
  {
    assert PicksAt([], rows, picked, []);
  }

  lemma PicksOneMore<T(!new)>(out: seq<T>, rows: seq<T>, picked: T -> bool, r: T)
    requires Picks(out, rows, picked)
    ensures Picks(if picked(r) then out + [r] else out, rows + [r], picked)
  {
    var at: seq<nat> :| PicksAt(out, rows, picked, at);
    var more: seq<nat> := if picked(r) then at + [|rows|] else at;
    PicksAtOneMore(out, rows, picked, r, at);
    assert PicksAt(if picked(r) then out + [r] else out, rows + [r], picked, more);
  }

  lemma PicksAtOneMore<T>(out: seq<T>, rows: seq<T>, picked: T -> bool, r: T, at: seq<nat>)
    requires PicksAt(out, rows, picked, at)
    ensures PicksAt(if picked(r) then out + [r] else out, rows + [r], picked, if picked(r) then at + [|rows|] else at)
  {
    var more: seq<nat> := if picked(r) then at + [|rows|] else at;
    var all, now := rows + [r], if picked(r) then out + [r] else out;
    assert forall i | 0 <= i < |rows| :: all[i] == rows[i];
    forall k | 0 <= k < |more| ensures more[k] < |all| && now[k] == all[more[k]] && picked(all[more[k]]) {
      if k < |at| { assert more[k] == at[k]; }
    }
    forall i | 0 <= i < |all| && picked(all[i]) ensures i in more {
      if i < |rows| { assert i in at; } else { assert more[|at|] == i; }
    }
  }
}
