/** The failure classifier of account/txnProcessor.go (`isTxnResponseFailure`, `getTxnStatusForFailureType`). */
module TxnFailure {
  import opened TxnError

  /** A decoded Near response. `Other` stands for numbers, booleans and lists. */
  datatype Json = Null | Text(text: string) | Object(members: map<string, Json>) | Other

  predicate OccursAt(s: string, sub: string, k: nat) {
    k + |sub| <= |s| && s[k..k + |sub|] == sub
  }

  /** strings.Contains. */
  predicate Contains(s: string, sub: string) {
    exists k: nat | k <= |s| :: OccursAt(s, sub, k)
  }

  // ---------------------------------------------------------------- specification

  /** Where following a path of member names through nested objects ends: `Lost` when a member is missing,
      `Stuck` when a name is looked up in something that is not an object (the Go type assertion panics). */
  datatype Walk = Lost | Stuck | At(leaf: Json)

  function WalkTo(path: seq<string>, tree: Json): Walk {
    if path == [] then At(tree)
    else if !tree.Object? then Stuck
    else if path[0] !in tree.members then Lost
    else WalkTo(path[1..], tree.members[path[0]])
  }

  /** A text contains another one if and only if it is that one with something before and something after it. */
  lemma ContainsMeansInside(s: string, sub: string)
    ensures Contains(s, sub) <==> exists a, b :: s == a + sub + b
  {
    if Contains(s, sub) {
      var k: nat :| k <= |s| && OccursAt(s, sub, k);
      assert s == s[..k] + sub + s[k + |sub|..];
    }
    if a, b :| s == a + sub + b {
      assert s[|a|..|a| + |sub|] == sub;
      assert OccursAt(s, sub, |a|);
    }
  }

  /** How a walk ends: it is stuck if it comes to something that is not an object while there are names left, lost if
      the object that it comes to does not have the next name, and otherwise it takes every name. */
  lemma {:induction false} WalkEnds(path: seq<string>, name: string, tree: Json)
    ensures WalkTo([], tree) == At(tree)
    ensures var before := WalkTo(path, tree);
            WalkTo(path + [name], tree)
            == match before
               case At(leaf) =>
                 if !leaf.Object? then Stuck else if name in leaf.members then At(leaf.members[name]) else Lost
               case _ => before
  {
    if path == [] {
      assert path + [name] == [name];
      assert [name][1..] == [];
    } else {
      assert (path + [name])[1..] == path[1..] + [name];
      if tree.Object? && path[0] in tree.members {
        WalkEnds(path[1..], name, tree.members[path[0]]);
      }
    }
  }

  predicate LeafMatches(pattern: string, leaf: Json) {
    leaf.Text? && (pattern == "*" || Contains(leaf.text, pattern))
  }

  /** An entry names a path and, last, a pattern for the text found there. */
  predicate Matches(entry: Mapping, tree: Json) {
    && entry.fields != []
    && var end := WalkTo(entry.fields[..|entry.fields| - 1], tree);
    && end.At?
    && LeafMatches(entry.fields[|entry.fields| - 1], end.leaf)
  }

  predicate Crashes(entry: Mapping, tree: Json) {
    entry.fields != [] && WalkTo(entry.fields[..|entry.fields| - 1], tree).Stuck?
  }

  /** An entry that decides nothing: no match, or a match for the status that means "no match". */
  predicate PassedOver(entry: Mapping, tree: Json) {
    !Crashes(entry, tree) && (Matches(entry, tree) ==> entry.status == AnyStatus)
  }

  datatype Outcome = Panic | Found(status: Status)

  /** The status of the first entry that decides. */
  function FirstMatch(table: seq<Mapping>, tree: Json): Outcome {
    if table == [] then Found(AnyStatus)
    else if Crashes(table[0], tree) then Panic
    else if PassedOver(table[0], tree) then FirstMatch(table[1..], tree)
    else Found(table[0].status)
  }

  // ---------------------------------------------------------------- the code

  /** One round of the inner loop of `getTxnStatusForFailureType`, as a loop over the fields of one entry. */
  method MatchEntry(entry: Mapping, tree: Json) returns (crashed: bool, status: Status)
    ensures crashed <==> Crashes(entry, tree)
    ensures !crashed ==> status == if Matches(entry, tree) then entry.status else AnyStatus
  {
    crashed, status := false, AnyStatus;
    var p := tree;
    var n := |entry.fields|;
    ghost var path := if n == 0 then [] else entry.fields[..n - 1];
    for i := 0 to n
      invariant n > 0 ==> i < n && WalkTo(path, tree) == WalkTo(path[i..], p)
      invariant status == AnyStatus
      invariant !crashed
    {
      var v := entry.fields[i];
      if i + 1 == n {
        if p.Text? {
          if v == "*" {
            status := entry.status;
          } else if Contains(p.text, v) {
            status := entry.status;
          } else {
            status := AnyStatus;
          }
        }
        return;
      } else if !p.Object? {
        crashed := true;
        return;
      } else if v in p.members {
        assert path[i..][1..] == path[i + 1..];
        p := p.members[v];
      } else {
        status := AnyStatus;
        return;
      }
    }
  }

  /** `getTxnStatusForFailureType`, for any mapping table. */
  method GetTxnStatusForFailureType(table: seq<Mapping>, mapFailure: Json) returns (r: Outcome)
    ensures r == FirstMatch(table, mapFailure)
  {
    var returnStatus := AnyStatus;
    for k := 0 to |table|
      invariant returnStatus == AnyStatus
      invariant FirstMatch(table, mapFailure) == FirstMatch(table[k..], mapFailure)
    {
      assert table[k..][1..] == table[k + 1..];
      var crashed;
      crashed, returnStatus := MatchEntry(table[k], mapFailure);
      if crashed {
        return Panic;
      }
      if returnStatus != AnyStatus {
        return Found(returnStatus);
      }
    }
    r := Found(returnStatus);
  }

  // ---------------------------------------------------------------- what the specification means

  ghost predicate FirstDecider(table: seq<Mapping>, tree: Json, k: nat) {
    k < |table| && !PassedOver(table[k], tree) && forall j :: 0 <= j < k ==> PassedOver(table[j], tree)
  }

  /** The result is that of the first entry that does not pass the tree over, and `AnyStatus` exactly when all do. */
  lemma {:induction false} FirstMatchIsFirst(table: seq<Mapping>, tree: Json)
    ensures forall k: nat :: FirstDecider(table, tree, k) ==>
              FirstMatch(table, tree) == if Crashes(table[k], tree) then Panic else Found(table[k].status)
    ensures FirstMatch(table, tree) == Found(AnyStatus)
       <==> forall j :: 0 <= j < |table| ==> PassedOver(table[j], tree)
  {
    if table != [] {
      var rest := table[1..];
      FirstMatchIsFirst(rest, tree);
      assert forall j :: 0 <= j < |rest| ==> rest[j] == table[j + 1];
      assert forall j :: 1 <= j < |table| ==> table[j] == rest[j - 1];
      forall k: nat | FirstDecider(table, tree, k)
        ensures FirstMatch(table, tree) == if Crashes(table[k], tree) then Panic else Found(table[k].status)
      {
        if k > 0 {
          assert FirstDecider(rest, tree, k - 1);
        }
      }
    }
  }

  /** Entries without fields can be put anywhere in a table without changing any result. */
  lemma {:induction false} EmptyEntriesChangeNothing(
    front: seq<Mapping>, back: seq<Mapping>, status: Status, tree: Json)
    ensures FirstMatch(front + [Mapping([], status)] + back, tree) == FirstMatch(front + back, tree)
  {
    var blank := Mapping([], status);
    if front == [] {
      assert front + [blank] + back == [blank] + back && front + back == back;
      assert ([blank] + back)[1..] == back;
    } else {
      EmptyEntriesChangeNothing(front[1..], back, status, tree);
      assert (front + [blank] + back)[1..] == front[1..] + [blank] + back;
      assert (front + back)[1..] == front[1..] + back;
    }
  }

  lemma TwoEntryTable(first: Mapping, second: Mapping, tree: Json)
    requires first.status != AnyStatus && second.status != AnyStatus
    requires first.fields != [] && second.fields != []
    ensures FirstMatch([first, second], tree)
         == if Crashes(first, tree) then Panic
            else if Matches(first, tree) then Found(first.status)
            else if Crashes(second, tree) then Panic
            else if Matches(second, tree) then Found(second.status)
            else Found(AnyStatus)
  {
    assert [first, second][1..] == [second];
    assert [second][1..] == [];
    assert FirstMatch([second][1..], tree) == Found(AnyStatus);
  }

  lemma RealTableIsTwoEntries(tree: Json)
    ensures FirstMatch(STATUS_MAPPING, tree) == FirstMatch([NONCE_ENTRY, PANIC_ENTRY], tree)
  {
    var two := [NONCE_ENTRY, PANIC_ENTRY];
    var e := EMPTY_ENTRY;
    EmptyEntriesChangeNothing(two, [e, e, e], Unset, tree);
    assert two + [e] + [e, e, e] == STATUS_MAPPING;
    EmptyEntriesChangeNothing(two, [e, e], Unset, tree);
    assert two + [e] + [e, e] == two + [e, e, e];
    EmptyEntriesChangeNothing(two, [e], Unset, tree);
    assert two + [e] + [e] == two + [e, e];
    EmptyEntriesChangeNothing(two, [], Unset, tree);
    assert two + [e] + [] == two + [e];
    assert two + [] == two;
  }

  lemma EntryPaths()
    ensures NONCE_ENTRY.fields[..4] == FAILURE_PATH && PANIC_ENTRY.fields[..4] == FAILURE_PATH
    ensures |NONCE_ENTRY.fields| == |PANIC_ENTRY.fields| == 5
    ensures NONCE_ENTRY.fields[4] == "ERR_INCORRECT_NONCE" && PANIC_ENTRY.fields[4] == "*"
  {
  }

  /** The shipped table: a text at the failure path is a nonce error if and only if it mentions it and a contract
      panic otherwise; no other status is ever reported; and the code panics exactly when the path runs through
      something that is not an object. */
  lemma ShippedTable(tree: Json)
    ensures var end := WalkTo(FAILURE_PATH, tree);
            var r := FirstMatch(STATUS_MAPPING, tree);
            && (r.Panic? <==> end.Stuck?)
            && (r == Found(EthNonceError)
                <==> end.At? && end.leaf.Text? && Contains(end.leaf.text, "ERR_INCORRECT_NONCE"))
            && (r == Found(AuroraContractPanicked)
                <==> end.At? && end.leaf.Text? && !Contains(end.leaf.text, "ERR_INCORRECT_NONCE"))
            && (r == Found(AnyStatus) <==> end.Lost? || (end.At? && !end.leaf.Text?))
  {
    RealTableIsTwoEntries(tree);
    TwoEntryTable(NONCE_ENTRY, PANIC_ENTRY, tree);
    EntryPaths();
  }

  /** The order of the two entries matters: swapped, every nonce error would be taken for a contract panic. */
  lemma SwappedTableHidesNonceErrors(tree: Json)
    ensures FirstMatch([PANIC_ENTRY, NONCE_ENTRY], tree)
         == if FirstMatch(STATUS_MAPPING, tree) == Found(EthNonceError) then Found(AuroraContractPanicked)
            else FirstMatch(STATUS_MAPPING, tree)
  {
    ShippedTable(tree);
    TwoEntryTable(PANIC_ENTRY, NONCE_ENTRY, tree);
    EntryPaths();
  }

  // ---------------------------------------------------------------- isTxnResponseFailure

  datatype Reading = Malformed | BadResponse | Failure(tree: Json) | Success

  /** `isTxnResponseFailure`; `Malformed` stands for the panic of a failed type assertion. */
  function IsTxnResponseFailure(resp: Json): Reading {
    if !resp.Object? then Malformed
    else if "status" !in resp.members then BadResponse
    else
      var status := resp.members["status"];
      if !status.Object? then Malformed
      else if "Failure" in status.members then Failure(status.members["Failure"])
      else if "SuccessValue" in status.members then Success
      else BadResponse
  }
}
