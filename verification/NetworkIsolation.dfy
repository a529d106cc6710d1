/** app/services/app_network_isolation.py: the chain of reject rules between output networks is
    rebuilt inside a snapshot/restore transaction.

    iptables is a map from chain names to rule sequences. Every command asks an oracle for its
    fate: it may succeed, or be reported as failed with or without having taken effect (a
    timeout), and an awaited command may be cancelled. Only one writer is assumed. */
module NetworkIsolation {
  import opened Common

  const MAX_JUMP_DELETES: nat := 20

  type Address = nat

  /** An IPv4 network, as the range of its addresses. */
  datatype Subnet = Subnet(first: Address, last: Address)

  datatype Rule = Reject(source: Subnet, destination: Subnet) | Jump | Other(number: nat)

  datatype Chain = Forward | Isolation | Custom(number: nat)

  type Tables = map<Chain, seq<Rule>>

  datatype Fate = Ok | Failed(applied: bool) | Cancelled(applied: bool)
  type Oracle = nat -> Fate

  predicate Contains(s: Subnet, a: Address) { s.first <= a <= s.last }

  // ----- iptables commands -----

  datatype Command = NewChain | FlushChain | AppendReject(source: Subnet, destination: Subnet) | DeleteJump | InsertJump

  predicate Applicable(t: Tables, c: Command)
    requires Forward in t
  {
    match c
    case NewChain => Isolation !in t
    case FlushChain => Isolation in t
    case AppendReject(_, _) => Isolation in t
    case DeleteJump => Jump in t[Forward]
    case InsertJump => true
  }

  function RemoveFirstJump(rules: seq<Rule>): seq<Rule> {
    if rules == [] then [] else if rules[0].Jump? then rules[1..] else [rules[0]] + RemoveFirstJump(rules[1..])
  }

  function Apply(t: Tables, c: Command): Tables
    requires Forward in t && Applicable(t, c)
  {
    match c
    case NewChain => t[Isolation := []]
    case FlushChain => t[Isolation := []]
    case AppendReject(s, d) => t[Isolation := t[Isolation] + [Reject(s, d)]]
    case DeleteJump => t[Forward := RemoveFirstJump(t[Forward])]
    case InsertJump => t[Forward := [Jump] + t[Forward]]
  }

  /** One command: did it report success, and what are the tables now. */
  function Execute(t: Tables, c: Command, fate: Fate): (r: (bool, Tables))
    requires Forward in t
    ensures Forward in r.1
  {
    if !Applicable(t, c) then (false, t)
    else match fate
      case Ok => (true, Apply(t, c))
      case Failed(applied) => (false, if applied then Apply(t, c) else t)
      case Cancelled(applied) => (false, if applied then Apply(t, c) else t)
  }

  // ----- The rules wanted -----

  /** The rules for one source: every other subnet as destination, in order. */
  function RowFor(source: Subnet, subnets: seq<Subnet>): seq<Rule> {
    if subnets == [] then []
    else
      var last := subnets[|subnets| - 1];
      RowFor(source, subnets[..|subnets| - 1]) + (if last == source then [] else [Reject(source, last)])
  }

  function Rows(sources: seq<Subnet>, subnets: seq<Subnet>): seq<Rule> {
    if sources == [] then [] else Rows(sources[..|sources| - 1], subnets) + RowFor(sources[|sources| - 1], subnets)
  }

  function OtherRules(rules: seq<Rule>): seq<Rule> {
    if rules == [] then [] else (if rules[0].Jump? then [] else [rules[0]]) + OtherRules(rules[1..])
  }

  function Jumps(rules: seq<Rule>): nat {
    if rules == [] then 0 else (if rules[0].Jump? then 1 else 0) + Jumps(rules[1..])
  }

  /** The jumps that twenty deletes leave. */
  function JumpsLeft(jumps: nat): nat { if jumps > MAX_JUMP_DELETES then jumps - MAX_JUMP_DELETES else 0 }

  ghost predicate SameElsewhere(t: Tables, t': Tables) {
    forall c :: c != Forward && c != Isolation ==> (c in t <==> c in t') && (c in t ==> t[c] == t'[c])
  }

  /** What a completed installation looks like. */
  ghost predicate Installed(before: Tables, subnets: seq<Subnet>, after: Tables)
    requires Forward in before
  {
    && Forward in after && Isolation in after
    && after[Isolation] == Rows(subnets, subnets)
    && after[Forward] != [] && after[Forward][0] == Jump
    && OtherRules(after[Forward]) == OtherRules(before[Forward])
    && SameElsewhere(before, after)
  }

  // ----- What the transaction does, as a function -----

  datatype Progress = Done | Error | Cancel

  datatype Ending =
    | Returned
    | SnapshotFailed      // iptables-save failed: nothing was done
    | CreateFailed        // the chain could not be created; raised before the guarded part
    | RolledBack          // a command failed and the snapshot was restored
    | RestoreFailed       // a command failed and so did the restore
    | Aborted             // cancelled: the handler of ordinary exceptions does not run

  /** A command reported as not successful took effect all the same. */
  predicate TookEffect(fate: Fate) { (fate.Failed? || fate.Cancelled?) && fate.applied }

  /** How a checked command that is not successful ends. */
  function EndOf(fate: Fate): Progress { if fate.Cancelled? then Cancel else Error }

  predicate AllOk(oracle: Oracle, from: nat, to: nat) { forall i | from <= i < to :: oracle(i).Ok? }

  /** How many of the n commands from `at` on are successful before the first that is not. */
  function Successes(oracle: Oracle, at: nat, n: nat): (k: nat)
    ensures k <= n && AllOk(oracle, at, at + k) && (k < n ==> !oracle(at + k).Ok?)
    decreases n
  {
    if n == 0 || !oracle(at).Ok? then 0 else 1 + Successes(oracle, at + 1, n - 1)
  }

  /** Appending `rules` to the chain, up to the first command that is not successful. */
  function Appended(t: Tables, rules: seq<Rule>, oracle: Oracle, at: nat): (Tables, Progress, nat)
    requires Isolation in t
  {
    var k := Successes(oracle, at, |rules|);
    if k == |rules| then (t[Isolation := t[Isolation] + rules], Done, at + k)
    else (t[Isolation := t[Isolation] + rules[..k] + (if TookEffect(oracle(at + k)) then [rules[k]] else [])],
          EndOf(oracle(at + k)), at + k + 1)
  }

  function DropJumps(rules: seq<Rule>, m: nat): seq<Rule>
    decreases m
  {
    if m == 0 then rules else DropJumps(RemoveFirstJump(rules), m - 1)
  }

  /** Deleting jumps: how many go, and how many commands that takes. */
  function DeleteRounds(jumps: nat, oracle: Oracle, at: nat, rounds: nat): (nat, nat) {
    if rounds == 0 then (0, 0)
    else if jumps == 0 then (0, 1)
    else if oracle(at).Ok? then
      var rest := DeleteRounds(jumps - 1, oracle, at + 1, rounds - 1);
      (rest.0 + 1, rest.1 + 1)
    else (if TookEffect(oracle(at)) then 1 else 0, 1)
  }

  /** Deleting old jumps and inserting the jump first. */
  function Rejumped(t: Tables, oracle: Oracle, at: nat): (r: (Tables, Progress, nat))
    requires Forward in t && Isolation in t
    ensures Forward in r.0 && Isolation in r.0
  {
    var deleted := DeleteRounds(Jumps(t[Forward]), oracle, at, MAX_JUMP_DELETES);
    var forward := DropJumps(t[Forward], deleted.0);
    var last := at + deleted.1;
    if oracle(last).Ok? then (t[Forward := [Jump] + forward], Done, last + 1)
    else (t[Forward := if TookEffect(oracle(last)) then [Jump] + forward else forward], EndOf(oracle(last)), last + 1)
  }

  /** The guarded part: flush, append every pair, delete old jumps, insert the jump first. */
  function Installation(t: Tables, subnets: seq<Subnet>, oracle: Oracle, at: nat): (r: (Tables, Progress, nat))
    requires Forward in t && Isolation in t
    ensures Forward in r.0 && Isolation in r.0
  {
    if !oracle(at).Ok? then (if TookEffect(oracle(at)) then t[Isolation := []] else t, EndOf(oracle(at)), at + 1)
    else
      var filled := Appended(t[Isolation := []], Rows(subnets, subnets), oracle, at + 1);
      if filled.1 != Done then filled else Rejumped(filled.0, oracle, filled.2)
  }

  /** The chain exists after iptables -N: it was there, or it has been created. */
  predicate Created(before: Tables, oracle: Oracle) { oracle(1).Ok? }

  /** The tables when the guarded part begins. */
  function AfterCreation(before: Tables): (t: Tables)
    ensures Isolation in t
  {
    if Isolation in before then before else before[Isolation := []]
  }

  /** _ensure_isolation_chain: the tables it leaves and how it ends. */
  function Transaction(before: Tables, subnets: seq<Subnet>, oracle: Oracle): (Tables, Ending)
    requires Forward in before
  {
    if !oracle(0).Ok? then (before, SnapshotFailed)
    else if !Created(before, oracle) then
      (if Isolation !in before && TookEffect(oracle(1)) then before[Isolation := []] else before, CreateFailed)
    else
      var (t, progress, next) := Installation(AfterCreation(before), subnets, oracle, 2);
      match progress
      case Done => (t, Returned)
      case Cancel => (t, Aborted)
      case Error =>
        if oracle(next).Ok? then (before, RolledBack)
        else (if TookEffect(oracle(next)) then before else t, RestoreFailed)
  }

  // ----- The transaction -----

  method Install(before: Tables, subnets: seq<Subnet>, oracle: Oracle, at: nat)
    returns (t: Tables, progress: Progress, next: nat)
    requires Forward in before && Isolation in before
    ensures (t, progress, next) == Installation(before, subnets, oracle, at)
  {
    t, progress := Checked(before, FlushChain, oracle, at);
    next := at + 1;
    if progress != Done { return; }
    t, progress, next := AppendPairs(t, subnets, oracle, next);
    if progress != Done { return; }
    t, progress, next := Rejump(t, oracle, next);
  }

  method Rejump(before: Tables, oracle: Oracle, at: nat) returns (t: Tables, progress: Progress, next: nat)
    requires Forward in before && Isolation in before
    ensures (t, progress, next) == Rejumped(before, oracle, at)
  {
    t, next := DeleteJumps(before, oracle, at);
    ghost var forward := t[Forward];
    t, progress := Checked(t, InsertJump, oracle, next);
    next := next + 1;
    assert before[Forward := forward][Forward := [Jump] + forward] == before[Forward := [Jump] + forward];
  }

  /** The nested loops over sources and destinations. */
  method AppendPairs(before: Tables, subnets: seq<Subnet>, oracle: Oracle, at: nat)
    returns (t: Tables, progress: Progress, next: nat)
    requires Forward in before && Isolation in before && before[Isolation] == []
    ensures (t, progress, next) == Appended(before, Rows(subnets, subnets), oracle, at)
  {
    t, progress, next := before, Done, at;
    assert before == before[Isolation := Rows(subnets[..0], subnets)];
    for i := 0 to |subnets|
      invariant progress == Done && AppendedSoFar(before, t, Rows(subnets[..i], subnets), oracle, at, next)
    {
      RowBegins(subnets, i);
      for j := 0 to |subnets|
        invariant progress == Done && AppendedSoFar(before, t, RulesBefore(subnets, i, j), oracle, at, next)
      {
        t, progress, next := AppendPair(before, t, subnets, i, j, oracle, at, next);
        if progress != Done { return; }
      }
    }
    assert subnets[..|subnets|] == subnets;
    AllAppended(before, Rows(subnets, subnets), oracle, at);
  }

  /** The body of the inner loop. */
  method AppendPair(ghost before: Tables, now: Tables, subnets: seq<Subnet>, i: nat, j: nat, oracle: Oracle, ghost at: nat, from: nat)
    returns (t: Tables, progress: Progress, next: nat)
    requires Isolation in before && before[Isolation] == [] && i < |subnets| && j < |subnets|
    requires AppendedSoFar(before, now, RulesBefore(subnets, i, j), oracle, at, from)
    ensures progress == Done ==> AppendedSoFar(before, t, RulesBefore(subnets, i, j + 1), oracle, at, next)
    ensures progress != Done ==> (t, progress, next) == Appended(before, Rows(subnets, subnets), oracle, at)
  {
    t, progress, next := now, Done, from;
    if subnets[i] == subnets[j] {
      NextRule(subnets, i, j);
    } else {
      t, progress := Checked(now, AppendReject(subnets[i], subnets[j]), oracle, from);
      next := from + 1;
      if progress != Done {
        PairStops(before, now, subnets, i, j, oracle, at, from);
      } else {
        NextRule(subnets, i, j);
        OneAppended(before, now, RulesBefore(subnets, i, j), Reject(subnets[i], subnets[j]), oracle, at, from);
      }
    }
  }

  lemma RuleIsNext(subnets: seq<Subnet>, i: nat, j: nat)
    requires i < |subnets| && j < |subnets| && subnets[i] != subnets[j]
    ensures RulesBefore(subnets, i, j) + [Reject(subnets[i], subnets[j])] <= Rows(subnets, subnets)
  {
    NextRule(subnets, i, j);
    RulesArePrefix(subnets, i, j + 1);
  }

  lemma PairStops(before: Tables, now: Tables, subnets: seq<Subnet>, i: nat, j: nat, oracle: Oracle, at: nat, from: nat)
    requires Isolation in before && before[Isolation] == [] && i < |subnets| && j < |subnets| && subnets[i] != subnets[j]
    requires AppendedSoFar(before, now, RulesBefore(subnets, i, j), oracle, at, from) && !oracle(from).Ok?
    ensures var rule := Reject(subnets[i], subnets[j]);
            var t := if TookEffect(oracle(from)) then now[Isolation := now[Isolation] + [rule]] else now;
            Appended(before, Rows(subnets, subnets), oracle, at) == (t, EndOf(oracle(from)), from + 1)
  {
    var rules, rule := RulesBefore(subnets, i, j), Reject(subnets[i], subnets[j]);
    var t := if TookEffect(oracle(from)) then now[Isolation := now[Isolation] + [rule]] else now;
    RuleIsNext(subnets, i, j);
    assert now[Isolation := rules + [rule]] == before[Isolation := rules + [rule]];
    AppendStops(before, t, rules, rule, Rows(subnets, subnets), oracle, at, from);
  }

  /** The rules appended before the inner loop reaches j in the row of i. */
  ghost function RulesBefore(subnets: seq<Subnet>, i: nat, j: nat): seq<Rule>
    requires i < |subnets| && j <= |subnets|
  {
    Rows(subnets[..i], subnets) + RowFor(subnets[i], subnets[..j])
  }

  lemma NextRule(subnets: seq<Subnet>, i: nat, j: nat)
    requires i < |subnets| && j < |subnets|
    ensures RulesBefore(subnets, i, j + 1)
         == if subnets[i] == subnets[j] then RulesBefore(subnets, i, j)
            else RulesBefore(subnets, i, j) + [Reject(subnets[i], subnets[j])]
  {
    assert subnets[..j + 1][..j] == subnets[..j];
  }

  lemma RowBegins(subnets: seq<Subnet>, i: nat)
    requires i < |subnets|
    ensures RulesBefore(subnets, i, 0) == Rows(subnets[..i], subnets)
    ensures RulesBefore(subnets, i, |subnets|) == Rows(subnets[..i + 1], subnets)
  {
    assert subnets[..|subnets|] == subnets && subnets[..i + 1][..i] == subnets[..i];
  }

  /** The rules appended one by one, all successfully. */
  ghost predicate AppendedSoFar(before: Tables, t: Tables, rules: seq<Rule>, oracle: Oracle, at: nat, next: nat)
    requires Isolation in before
  {
    && Forward in t && t == before[Isolation := rules] && next == at + |rules|
    && AllOk(oracle, at, next)
  }

  lemma OneAppended(before: Tables, now: Tables, rules: seq<Rule>, rule: Rule, oracle: Oracle, at: nat, from: nat)
    requires Isolation in before && AppendedSoFar(before, now, rules, oracle, at, from) && oracle(from).Ok?
    ensures AppendedSoFar(before, now[Isolation := now[Isolation] + [rule]], rules + [rule], oracle, at, from + 1)
  {
    assert now[Isolation := rules + [rule]] == before[Isolation := rules + [rule]];
  }

  lemma {:induction false} SuccessesIs(oracle: Oracle, at: nat, n: nat, k: nat)
    requires k <= n && AllOk(oracle, at, at + k) && (k < n ==> !oracle(at + k).Ok?)
    ensures Successes(oracle, at, n) == k
    decreases k
  {
    if k != 0 { SuccessesIs(oracle, at + 1, n - 1, k - 1); }
  }

  lemma AllAppended(before: Tables, rules: seq<Rule>, oracle: Oracle, at: nat)
    requires Isolation in before && before[Isolation] == [] && AllOk(oracle, at, at + |rules|)
    ensures Appended(before, rules, oracle, at) == (before[Isolation := rules], Done, at + |rules|)
  {
    SuccessesIs(oracle, at, |rules|, |rules|);
    assert [] + rules == rules;
  }

  lemma AppendStops(before: Tables, t: Tables, rules: seq<Rule>, rule: Rule, all: seq<Rule>, oracle: Oracle, at: nat, next: nat)
    requires Isolation in before && before[Isolation] == [] && next == at + |rules| && !oracle(next).Ok?
    requires AllOk(oracle, at, next)
    requires rules + [rule] <= all
    requires t == before[Isolation := if TookEffect(oracle(next)) then rules + [rule] else rules]
    ensures Appended(before, all, oracle, at) == (t, EndOf(oracle(next)), next + 1)
  {
    SuccessesIs(oracle, at, |all|, |rules|);
    assert all[..|rules|] == rules && all[|rules|] == rule;
    assert [] + rules + [rule] == rules + [rule] && [] + rules + [] == rules;
  }

  lemma {:induction false} RowPrefix(source: Subnet, subnets: seq<Subnet>, j: nat)
    requires j <= |subnets|
    ensures RowFor(source, subnets[..j]) <= RowFor(source, subnets)
  {
    if j < |subnets| {
      var front := subnets[..|subnets| - 1];
      RowPrefix(source, front, j);
      assert front[..j] == subnets[..j];
    } else {
      assert subnets[..j] == subnets;
    }
  }

  lemma {:induction false} RowsPrefix(sources: seq<Subnet>, subnets: seq<Subnet>, i: nat)
    requires i <= |sources|
    ensures Rows(sources[..i], subnets) <= Rows(sources, subnets)
  {
    if i < |sources| {
      var front := sources[..|sources| - 1];
      RowsPrefix(front, subnets, i);
      assert front[..i] == sources[..i];
    } else {
      assert sources[..i] == sources;
    }
  }

  /** What the loops have appended is always a prefix of all the rows. */
  lemma RulesArePrefix(subnets: seq<Subnet>, i: nat, j: nat)
    requires i < |subnets| && j <= |subnets|
    ensures RulesBefore(subnets, i, j) <= Rows(subnets, subnets)
  {
    RowBegins(subnets, i);
    RowsPrefix(subnets, subnets, i + 1);
    RowPrefix(subnets[i], subnets, j);
    assert subnets[..|subnets|] == subnets;
    PrefixUnder(Rows(subnets[..i], subnets), RowFor(subnets[i], subnets[..j]), RowFor(subnets[i], subnets));
  }

  lemma PrefixUnder(a: seq<Rule>, b: seq<Rule>, c: seq<Rule>)
    requires b <= c
    ensures a + b <= a + c
  {
  }

  /** run_command_checked_async. */
  method Checked(before: Tables, c: Command, oracle: Oracle, at: nat) returns (t: Tables, progress: Progress)
    requires Forward in before
    ensures t == Execute(before, c, oracle(at)).1
    ensures progress == Done <==> Execute(before, c, oracle(at)).0
    ensures progress == Cancel ==> oracle(at).Cancelled?
    ensures progress != Done && Applicable(before, c) ==> progress == EndOf(oracle(at))
  {
    var (ok, after) := Execute(before, c, oracle(at));
    t := after;
    progress := if ok then Done else if Applicable(before, c) && oracle(at).Cancelled? then Cancel else Error;
  }

  /** At most twenty deletes, stopping at the first that is reported as failed. */
  method DeleteJumps(before: Tables, oracle: Oracle, at: nat) returns (t: Tables, next: nat)
    requires Forward in before
    ensures var deleted := DeleteRounds(Jumps(before[Forward]), oracle, at, MAX_JUMP_DELETES);
            t == before[Forward := DropJumps(before[Forward], deleted.0)] && next == at + deleted.1
  {
    t, next := before, at;
    var round := 0;
    while round < MAX_JUMP_DELETES
      invariant round <= MAX_JUMP_DELETES && next == at + round
      invariant DeletedSoFar(before, t, oracle, at, round)
    {
      var ok;
      ok, t := DeleteOnce(before, t, oracle, at, round);
      next := next + 1;
      if !ok { return; }
      round := round + 1;
    }
  }

  /** `round` jumps are gone, each by a successful command. */
  ghost predicate DeletedSoFar(before: Tables, t: Tables, oracle: Oracle, at: nat, round: nat)
    requires Forward in before && round <= MAX_JUMP_DELETES
  {
    && Forward in t && t == before[Forward := DropJumps(before[Forward], round)]
    && var left := DeleteRounds(Jumps(t[Forward]), oracle, at + round, MAX_JUMP_DELETES - round);
       DeleteRounds(Jumps(before[Forward]), oracle, at, MAX_JUMP_DELETES) == (round + left.0, round + left.1)
  }

  /** One round of the delete loop. */
  method DeleteOnce(ghost before: Tables, now: Tables, oracle: Oracle, at: nat, round: nat) returns (ok: bool, t: Tables)
    requires Forward in before && round < MAX_JUMP_DELETES && DeletedSoFar(before, now, oracle, at, round)
    ensures ok ==> DeletedSoFar(before, t, oracle, at, round + 1)
    ensures !ok ==> var deleted := DeleteRounds(Jumps(before[Forward]), oracle, at, MAX_JUMP_DELETES);
                    t == before[Forward := DropJumps(before[Forward], deleted.0)] && deleted.1 == round + 1
  {
    RemoveFirstJumpKeepsOthers(now[Forward]);
    DropOneMore(before[Forward], round);
    var (done, after) := Execute(now, DeleteJump, oracle(at + round));
    ok, t := done, after;
  }

  lemma {:induction false} DropOneMore(rules: seq<Rule>, m: nat)
    ensures DropJumps(rules, m + 1) == RemoveFirstJump(DropJumps(rules, m))
    decreases m
  {
    if m != 0 { DropOneMore(RemoveFirstJump(rules), m - 1); }
  }

  /** _ensure_isolation_chain. */
  method EnsureIsolationChain(before: Tables, subnets: seq<Subnet>, oracle: Oracle)
    returns (after: Tables, ending: Ending)
    requires Forward in before
    ensures (after, ending) == Transaction(before, subnets, oracle)
  {
    if !oracle(0).Ok? {
      return before, SnapshotFailed;
    }
    var snapshot := before;
    var (created, t) := Execute(before, NewChain, oracle(1));
    var alreadyExists := Isolation in before && oracle(1).Ok?;
    if !created && !alreadyExists {
      return t, CreateFailed;
    }
    assert t == AfterCreation(before);
    var progress, next;
    t, progress, next := Install(t, subnets, oracle, 2);
    match progress
    case Done => return t, Returned;
    case Cancel => return t, Aborted;
    case Error =>
      match oracle(next)
      case Ok => return snapshot, RolledBack;
      case Failed(applied) => return if applied then snapshot else t, RestoreFailed;
      case Cancelled(applied) => return if applied then snapshot else t, RestoreFailed;
  }

  lemma {:induction false} RemoveFirstJumpKeepsOthers(rules: seq<Rule>)
    ensures OtherRules(RemoveFirstJump(rules)) == OtherRules(rules)
    ensures Jumps(RemoveFirstJump(rules)) == if Jump in rules then Jumps(rules) - 1 else 0
    ensures Jumps(rules) > 0 <==> Jump in rules
  {
    if rules != [] {
      RemoveFirstJumpKeepsOthers(rules[1..]);
      if !rules[0].Jump? {
        assert ([rules[0]] + RemoveFirstJump(rules[1..]))[1..] == RemoveFirstJump(rules[1..]);
      }
    }
  }

  // ----- Every ending of the transaction -----

  lemma {:induction false} DropJumpsKeepsOthers(rules: seq<Rule>, m: nat)
    ensures OtherRules(DropJumps(rules, m)) == OtherRules(rules)
    ensures Jumps(DropJumps(rules, m)) == if m <= Jumps(rules) then Jumps(rules) - m else 0
    decreases m
  {
    if m != 0 {
      RemoveFirstJumpKeepsOthers(rules);
      DropJumpsKeepsOthers(RemoveFirstJump(rules), m - 1);
    }
  }

  lemma {:induction false} DeleteRoundsBounds(jumps: nat, oracle: Oracle, at: nat, rounds: nat)
    ensures var deleted := DeleteRounds(jumps, oracle, at, rounds);
            && deleted.0 <= jumps && deleted.0 <= deleted.1 <= rounds
            && (AllOk(oracle, at, at + rounds) ==> deleted.0 == if jumps < rounds then jumps else rounds)
    decreases rounds
  {
    if rounds != 0 && jumps != 0 { DeleteRoundsBounds(jumps - 1, oracle, at + 1, rounds - 1); }
  }

  /** Where the insertion comes when everything checked before it succeeds: after the flush, the
      appends and the deletes that are issued. */
  function InsertAt(before: Tables, subnets: seq<Subnet>, oracle: Oracle): nat
    requires Forward in before
  {
    var at := 3 + |Rows(subnets, subnets)|;
    at + DeleteRounds(Jumps(before[Forward]), oracle, at, MAX_JUMP_DELETES).1
  }

  /** The commands whose failure raises: flush, appends, insertion. */
  predicate IsChecked(before: Tables, subnets: seq<Subnet>, oracle: Oracle, p: nat)
    requires Forward in before
  {
    2 <= p <= 2 + |Rows(subnets, subnets)| || p == InsertAt(before, subnets, oracle)
  }

  ghost predicate IsFirstFault(before: Tables, subnets: seq<Subnet>, oracle: Oracle, p: nat)
    requires Forward in before
  {
    && IsChecked(before, subnets, oracle, p) && !oracle(p).Ok?
    && forall q: nat :: q < p && IsChecked(before, subnets, oracle, q) ==> oracle(q).Ok?
  }

  /** The FORWARD chain when the insertion is issued. */
  function Cleared(before: Tables, subnets: seq<Subnet>, oracle: Oracle): seq<Rule>
    requires Forward in before
  {
    var at := 3 + |Rows(subnets, subnets)|;
    DropJumps(before[Forward], DeleteRounds(Jumps(before[Forward]), oracle, at, MAX_JUMP_DELETES).0)
  }

  /** The tables that a first fault at p leaves when nothing is restored. */
  function LeftBy(before: Tables, subnets: seq<Subnet>, oracle: Oracle, p: nat): Tables
    requires Forward in before && IsChecked(before, subnets, oracle, p)
  {
    var t, rules, applied := AfterCreation(before), Rows(subnets, subnets), TookEffect(oracle(p));
    if p == 2 then (if applied then t[Isolation := []] else t)
    else if p <= 2 + |rules| then t[Isolation := Reached(rules, oracle, 3, p - 3)]
    else t[Isolation := rules][Forward := (if applied then [Jump] else []) + Cleared(before, subnets, oracle)]
  }

  /** The rules in the chain when the k-th append, at command at + k, is not successful. */
  function Reached(rules: seq<Rule>, oracle: Oracle, at: nat, k: nat): seq<Rule>
    requires k < |rules|
  {
    rules[..k + (if TookEffect(oracle(at + k)) then 1 else 0)]
  }

  lemma FilledCompletely(start: Tables, rules: seq<Rule>, oracle: Oracle, at: nat)
    requires Isolation in start && Successes(oracle, at, |rules|) == |rules|
    ensures Appended(start[Isolation := []], rules, oracle, at) == (start[Isolation := rules], Done, at + |rules|)
  {
    assert [] + rules == rules;
    Overwritten(start, rules);
  }

  lemma FilledUpTo(start: Tables, rules: seq<Rule>, oracle: Oracle, at: nat, k: nat)
    requires Isolation in start && k < |rules| && Successes(oracle, at, |rules|) == k
    ensures Appended(start[Isolation := []], rules, oracle, at)
         == (start[Isolation := Reached(rules, oracle, at, k)], EndOf(oracle(at + k)), at + k + 1)
  {
    assert [] + rules[..k] + (if TookEffect(oracle(at + k)) then [rules[k]] else []) == Reached(rules, oracle, at, k);
    Overwritten(start, Reached(rules, oracle, at, k));
  }

  lemma Overwritten(t: Tables, rules: seq<Rule>)
    ensures t[Isolation := []][Isolation := rules] == t[Isolation := rules]
  {
  }

  /** The guarded part is done exactly when no checked command faults, and stops at the first. */
  ghost predicate EndsAsChecked(before: Tables, subnets: seq<Subnet>, oracle: Oracle, t: Tables, progress: Progress, next: nat)
    requires Forward in before
  {
    if progress == Done then
      && (forall p: nat :: IsChecked(before, subnets, oracle, p) ==> oracle(p).Ok?)
      && t == AfterCreation(before)[Isolation := Rows(subnets, subnets)][Forward := [Jump] + Cleared(before, subnets, oracle)]
    else
      && next > 0 && IsFirstFault(before, subnets, oracle, next - 1)
      && progress == EndOf(oracle(next - 1)) && t == LeftBy(before, subnets, oracle, next - 1)
  }

  lemma FlushFaults(before: Tables, subnets: seq<Subnet>, oracle: Oracle)
    requires Forward in before && !oracle(2).Ok?
    ensures var r := Installation(AfterCreation(before), subnets, oracle, 2);
            EndsAsChecked(before, subnets, oracle, r.0, r.1, r.2)
  {
    assert IsFirstFault(before, subnets, oracle, 2);
  }

  lemma AppendFaults(before: Tables, subnets: seq<Subnet>, oracle: Oracle)
    requires Forward in before && oracle(2).Ok? && Successes(oracle, 3, |Rows(subnets, subnets)|) < |Rows(subnets, subnets)|
    ensures var r := Installation(AfterCreation(before), subnets, oracle, 2);
            EndsAsChecked(before, subnets, oracle, r.0, r.1, r.2)
  {
    var rules := Rows(subnets, subnets);
    var p := 3 + Successes(oracle, 3, |rules|);
    FilledUpTo(AfterCreation(before), rules, oracle, 3, p - 3);
    assert InsertAt(before, subnets, oracle) >= 3 + |rules|;
    assert IsFirstFault(before, subnets, oracle, p);
  }

  lemma InsertReached(before: Tables, subnets: seq<Subnet>, oracle: Oracle)
    requires Forward in before && oracle(2).Ok? && Successes(oracle, 3, |Rows(subnets, subnets)|) == |Rows(subnets, subnets)|
    ensures var r := Installation(AfterCreation(before), subnets, oracle, 2);
            EndsAsChecked(before, subnets, oracle, r.0, r.1, r.2)
  {
    var last := InsertAt(before, subnets, oracle);
    FilledCompletely(AfterCreation(before), Rows(subnets, subnets), oracle, 3);
    assert [] + Cleared(before, subnets, oracle) == Cleared(before, subnets, oracle);
    forall q: nat | q != last && IsChecked(before, subnets, oracle, q) ensures oracle(q).Ok? {
      assert 2 <= q < 3 + |Rows(subnets, subnets)|;
    }
    if !oracle(last).Ok? {
      assert IsFirstFault(before, subnets, oracle, last);
    }
  }

  /** The commands that come before the guarded part are successful. */
  predicate Begun(oracle: Oracle) { oracle(0).Ok? && oracle(1).Ok? }

  lemma InstallationEnds(before: Tables, subnets: seq<Subnet>, oracle: Oracle)
    requires Forward in before
    ensures var r := Installation(AfterCreation(before), subnets, oracle, 2);
            EndsAsChecked(before, subnets, oracle, r.0, r.1, r.2)
  {
    if !oracle(2).Ok? {
      FlushFaults(before, subnets, oracle);
    } else if Successes(oracle, 3, |Rows(subnets, subnets)|) < |Rows(subnets, subnets)| {
      AppendFaults(before, subnets, oracle);
    } else {
      InsertReached(before, subnets, oracle);
    }
  }

  /** What the first fault leads to: its cancellation leaves its tables, its failure is followed
      by the restore, command p + 1. */
  lemma FaultDecides(before: Tables, subnets: seq<Subnet>, oracle: Oracle, p: nat)
    requires Forward in before && Begun(oracle) && IsFirstFault(before, subnets, oracle, p)
    ensures Transaction(before, subnets, oracle)
         == if oracle(p).Cancelled? then (LeftBy(before, subnets, oracle, p), Aborted)
            else if oracle(p + 1).Ok? then (before, RolledBack)
            else (if TookEffect(oracle(p + 1)) then before else LeftBy(before, subnets, oracle, p), RestoreFailed)
  {
    InstallationEnds(before, subnets, oracle);
    var r := Installation(AfterCreation(before), subnets, oracle, 2);
    assert r.1 != Done;
    assert r.2 - 1 == p;
  }

  lemma NoFaultReturns(before: Tables, subnets: seq<Subnet>, oracle: Oracle)
    requires Forward in before && Begun(oracle)
    ensures Transaction(before, subnets, oracle).1 == Returned || exists p: nat :: IsFirstFault(before, subnets, oracle, p)
    ensures Transaction(before, subnets, oracle).1 == Returned ==>
              forall p: nat :: IsChecked(before, subnets, oracle, p) ==> oracle(p).Ok?
  {
    InstallationEnds(before, subnets, oracle);
  }

  /** The exact condition of each ending: p is the first checked command that is not successful,
      and the restore is command p + 1. */
  lemma EndingIffFirstFault(before: Tables, subnets: seq<Subnet>, oracle: Oracle)
    requires Forward in before
    ensures var ending := Transaction(before, subnets, oracle).1;
      && (ending == SnapshotFailed <==> !oracle(0).Ok?)
      && (ending == CreateFailed <==> oracle(0).Ok? && !oracle(1).Ok?)
      && (ending == Returned <==> Begun(oracle) && forall p: nat :: IsChecked(before, subnets, oracle, p) ==> oracle(p).Ok?)
      && (ending == Aborted <==>
            Begun(oracle) && exists p: nat :: IsFirstFault(before, subnets, oracle, p) && oracle(p).Cancelled?)
      && (ending == RolledBack <==>
            Begun(oracle) && exists p: nat :: IsFirstFault(before, subnets, oracle, p) && oracle(p).Failed? && oracle(p + 1).Ok?)
      && (ending == RestoreFailed <==>
            Begun(oracle) && exists p: nat :: IsFirstFault(before, subnets, oracle, p) && oracle(p).Failed? && !oracle(p + 1).Ok?)
  {
    if Begun(oracle) {
      NoFaultReturns(before, subnets, oracle);
      if p: nat :| IsFirstFault(before, subnets, oracle, p) {
        FaultDecides(before, subnets, oracle, p);
        assert forall q: nat :: IsFirstFault(before, subnets, oracle, q) ==> q == p;
      }
    }
  }

  /** Whether the commands up to the fault at p happen to leave the tables as they were: the chain
      existed and held what was appended, and the jumps deleted and inserted cancel out. */
  predicate NothingChanged(before: Tables, subnets: seq<Subnet>, oracle: Oracle, p: nat)
    requires Forward in before
  {
    var rules, applied := Rows(subnets, subnets), TookEffect(oracle(p));
    var deleted := DeleteRounds(Jumps(before[Forward]), oracle, 3 + |rules|, MAX_JUMP_DELETES).0;
    && Isolation in before
    && if p == 2 then applied ==> before[Isolation] == []
       else if p <= 2 + |rules| then p >= 3 && before[Isolation] == Reached(rules, oracle, 3, p - 3)
       else && before[Isolation] == rules
            && if applied then deleted == 1 && before[Forward][0] == Jump else deleted == 0
  }

  /** Deleting m jumps changes nothing exactly if m is 0; followed by an insertion, exactly if the
      one jump deleted was the first rule. */
  lemma DropAndInsert(rules: seq<Rule>, m: nat)
    requires m <= Jumps(rules)
    ensures DropJumps(rules, m) == rules <==> m == 0
    ensures [Jump] + DropJumps(rules, m) == rules <==> m == 1 && rules[0] == Jump
  {
    DropJumpsKeepsOthers(rules, m);
    var dropped := DropJumps(rules, m);
    assert ([Jump] + dropped)[1..] == dropped;
    assert Jumps([Jump] + dropped) == 1 + Jumps(dropped);
    if m == 1 {
      assert dropped == RemoveFirstJump(rules);
    }
  }

  lemma LeavesNothingChangedIff(before: Tables, subnets: seq<Subnet>, oracle: Oracle, p: nat)
    requires Forward in before && IsChecked(before, subnets, oracle, p)
    ensures LeftBy(before, subnets, oracle, p) == before <==> NothingChanged(before, subnets, oracle, p)
  {
    var at := 3 + |Rows(subnets, subnets)|;
    DeleteRoundsBounds(Jumps(before[Forward]), oracle, at, MAX_JUMP_DELETES);
    DropAndInsert(before[Forward], DeleteRounds(Jumps(before[Forward]), oracle, at, MAX_JUMP_DELETES).0);
    var left := LeftBy(before, subnets, oracle, p);
    if Isolation in before && left[Isolation] == before[Isolation] && left[Forward] == before[Forward] {
      assert left == before;
    }
  }

  /** A call that raises leaves the tables as they were exactly if: nothing was done (no snapshot),
      the chain was not created half-way, the snapshot was restored, or what was done up to the
      fault changed nothing. */
  lemma RaiseKeepsTablesIff(before: Tables, subnets: seq<Subnet>, oracle: Oracle)
    requires Forward in before && Transaction(before, subnets, oracle).1 != Returned
    ensures Transaction(before, subnets, oracle).0 == before <==> RaisedUnchanged(before, subnets, oracle)
  {
    if Begun(oracle) {
      NoFaultReturns(before, subnets, oracle);
      var p: nat :| IsFirstFault(before, subnets, oracle, p);
      FaultDecides(before, subnets, oracle, p);
      LeavesNothingChangedIff(before, subnets, oracle, p);
      assert forall q: nat :: IsFirstFault(before, subnets, oracle, q) ==> q == p;
    }
  }

  ghost predicate RaisedUnchanged(before: Tables, subnets: seq<Subnet>, oracle: Oracle)
    requires Forward in before
  {
    if !oracle(0).Ok? then true
    else if !oracle(1).Ok? then !(Isolation !in before && TookEffect(oracle(1)))
    else exists p: nat :: IsFirstFault(before, subnets, oracle, p)
           && (NothingChanged(before, subnets, oracle, p)
               || (oracle(p).Failed? && (oracle(p + 1).Ok? || TookEffect(oracle(p + 1)))))
  }

  /** However the call ends, no other chain changes and FORWARD keeps its other rules in order;
      a return means that all is installed. */
  lemma EveryEndingKeepsOthers(before: Tables, subnets: seq<Subnet>, oracle: Oracle)
    requires Forward in before
    ensures var (after, ending) := Transaction(before, subnets, oracle);
      && Forward in after && SameElsewhere(before, after)
      && OtherRules(after[Forward]) == OtherRules(before[Forward])
      && (ending == Returned ==> Installed(before, subnets, after))
  {
    if Begun(oracle) {
      InstallationEnds(before, subnets, oracle);
      ClearedKeepsOthers(before, subnets, oracle);
      if p: nat :| IsFirstFault(before, subnets, oracle, p) {
        FaultDecides(before, subnets, oracle, p);
        LeftByKeepsOthers(before, subnets, oracle, p);
      }
    }
  }

  lemma LeftByKeepsOthers(before: Tables, subnets: seq<Subnet>, oracle: Oracle, p: nat)
    requires Forward in before && IsChecked(before, subnets, oracle, p)
    ensures var left := LeftBy(before, subnets, oracle, p);
            Forward in left && SameElsewhere(before, left) && OtherRules(left[Forward]) == OtherRules(before[Forward])
  {
    if p > 2 + |Rows(subnets, subnets)| {
      ClearedKeepsOthers(before, subnets, oracle);
      assert [] + Cleared(before, subnets, oracle) == Cleared(before, subnets, oracle);
    } else {
      assert LeftBy(before, subnets, oracle, p)[Forward] == before[Forward];
    }
  }

  lemma ClearedKeepsOthers(before: Tables, subnets: seq<Subnet>, oracle: Oracle)
    requires Forward in before
    ensures OtherRules([Jump] + Cleared(before, subnets, oracle)) == OtherRules(before[Forward])
    ensures OtherRules(Cleared(before, subnets, oracle)) == OtherRules(before[Forward])
  {
    var at := 3 + |Rows(subnets, subnets)|;
    DropJumpsKeepsOthers(before[Forward], DeleteRounds(Jumps(before[Forward]), oracle, at, MAX_JUMP_DELETES).0);
    JumpInFront(Cleared(before, subnets, oracle));
  }

  lemma JumpInFront(rules: seq<Rule>)
    ensures OtherRules([Jump] + rules) == OtherRules(rules) && Jumps([Jump] + rules) == 1 + Jumps(rules)
  {
    assert ([Jump] + rules)[1..] == rules;
  }

  /** If every command succeeds the call returns, and of the old jumps those beyond twenty are left. */
  lemma AllSucceed(before: Tables, subnets: seq<Subnet>, oracle: Oracle)
    requires Forward in before && forall i :: oracle(i).Ok?
    ensures var (after, ending) := Transaction(before, subnets, oracle);
      && ending == Returned && Forward in after
      && Jumps(after[Forward]) == 1 + JumpsLeft(Jumps(before[Forward]))
  {
    var at := 3 + |Rows(subnets, subnets)|;
    InstallationEnds(before, subnets, oracle);
    DeleteRoundsBounds(Jumps(before[Forward]), oracle, at, MAX_JUMP_DELETES);
    DropJumpsKeepsOthers(before[Forward], DeleteRounds(Jumps(before[Forward]), oracle, at, MAX_JUMP_DELETES).0);
    JumpInFront(Cleared(before, subnets, oracle));
  }

  // ----- Each ordered pair once -----

  lemma {:induction false} RowMembers(source: Subnet, subnets: seq<Subnet>)
    requires NoDuplicates(subnets)
    ensures forall r :: r in RowFor(source, subnets) <==>
              r.Reject? && r.source == source && r.destination in subnets && r.destination != source
    ensures NoDuplicates(RowFor(source, subnets))
    ensures |RowFor(source, subnets)| == |subnets| - (if source in subnets then 1 else 0)
  {
    if subnets != [] {
      var n := |subnets| - 1;
      RowMembers(source, subnets[..n]);
      assert subnets == subnets[..n] + [subnets[n]];
      assert subnets[n] !in subnets[..n];
    }
  }

  lemma JoinDisjoint(a: seq<Rule>, b: seq<Rule>)
    requires NoDuplicates(a) && NoDuplicates(b) && forall r | r in a :: r !in b
    ensures NoDuplicates(a + b)
  {
    forall i, j | 0 <= i < j < |a + b| ensures (a + b)[i] != (a + b)[j] {
      if i < |a| <= j {
        assert (a + b)[i] in a && (a + b)[j] in b;
      }
    }
  }

  predicate InRows(r: Rule, sources: seq<Subnet>, subnets: seq<Subnet>) {
    r.Reject? && r.source in sources && r.destination in subnets && r.source != r.destination
  }

  lemma {:induction false} RowsMembers(sources: seq<Subnet>, subnets: seq<Subnet>)
    requires NoDuplicates(sources) && NoDuplicates(subnets) && forall s | s in sources :: s in subnets
    ensures forall r :: r in Rows(sources, subnets) <==> InRows(r, sources, subnets)
    ensures NoDuplicates(Rows(sources, subnets))
  {
    if sources != [] {
      var n := |sources| - 1;
      var before, last := sources[..n], sources[n];
      assert sources == before + [last] && last !in before && last in sources;
      RowsMembers(before, subnets);
      RowMembers(last, subnets);
      JoinDisjoint(Rows(before, subnets), RowFor(last, subnets));
    }
  }

  lemma {:induction false} RowsCount(sources: seq<Subnet>, subnets: seq<Subnet>)
    requires NoDuplicates(subnets) && forall i | 0 <= i < |sources| :: sources[i] in subnets
    ensures |Rows(sources, subnets)| == |sources| * (|subnets| - 1)
  {
    if sources != [] {
      var n := |sources| - 1;
      assert |Rows(sources[..n], subnets)| == n * (|subnets| - 1) by { RowsCount(sources[..n], subnets); }
      assert |RowFor(sources[n], subnets)| == |subnets| - 1 by { RowMembers(sources[n], subnets); }
      MultiplyOnce(n, |subnets| - 1);
    }
  }

  lemma MultiplyOnce(n: int, k: int)
    ensures (n + 1) * k == n * k + k
  {
  }

  /** For distinct subnets the chain lists each ordered pair of two of them exactly once. */
  lemma EachPairOnce(subnets: seq<Subnet>)
    requires NoDuplicates(subnets)
    ensures forall s, d :: Reject(s, d) in Rows(subnets, subnets) <==> s in subnets && d in subnets && s != d
    ensures NoDuplicates(Rows(subnets, subnets))
    ensures |Rows(subnets, subnets)| == |subnets| * (|subnets| - 1)
  {
    RowsMembers(subnets, subnets);
    RowsCount(subnets, subnets);
  }

  // ----- The audit -----

  datatype Audit = Refused | Accepted(rejectRules: nat)

  function RejectCount(rules: seq<Rule>): nat {
    if rules == [] then 0 else RejectCount(rules[..|rules| - 1]) + (if rules[|rules| - 1].Reject? then 1 else 0)
  }

  /** audit_app_network_isolation_guard, when both listings can be read. */
  function AuditGuard(t: Tables): Audit
    requires Forward in t
  {
    if Isolation !in t then Refused
    else if t[Forward] == [] || t[Forward][0] != Jump then Refused
    else Accepted(RejectCount(t[Isolation]))
  }

  lemma {:induction false} AllReject(rules: seq<Rule>)
    requires forall r | r in rules :: r.Reject?
    ensures RejectCount(rules) == |rules|
  {
    if rules != [] { AllReject(rules[..|rules| - 1]); }
  }

  /** After a return the audit accepts and counts n * (n - 1) reject rules. */
  lemma InstalledPassesAudit(before: Tables, subnets: seq<Subnet>, after: Tables)
    requires Forward in before && NoDuplicates(subnets) && Installed(before, subnets, after)
    ensures AuditGuard(after) == Accepted(|subnets| * (|subnets| - 1))
  {
    RowsMembers(subnets, subnets);
    RowsCount(subnets, subnets);
    AllReject(after[Isolation]);
  }

  // ----- What happens to packets -----

  /** Whether a packet was decided: rejected, or what one of the other rules says. */
  datatype Verdict = Undecided | Rejected | ByRule(number: nat)

  function ChainVerdict(rules: seq<Rule>, from: Address, to: Address): Verdict {
    if rules == [] then Undecided
    else if rules[0].Reject? && Contains(rules[0].source, from) && Contains(rules[0].destination, to) then Rejected
    else ChainVerdict(rules[1..], from, to)
  }

  /** FORWARD is read from the top; `matches` says which packets the other rules decide. */
  function ForwardVerdict(rules: seq<Rule>, chain: seq<Rule>,
                          matches: (nat, Address, Address) -> bool, from: Address, to: Address): Verdict {
    if rules == [] then Undecided
    else match rules[0]
      case Jump =>
        var v := ChainVerdict(chain, from, to);
        if v.Undecided? then ForwardVerdict(rules[1..], chain, matches, from, to) else v
      case Other(k) => if matches(k, from, to) then ByRule(k) else ForwardVerdict(rules[1..], chain, matches, from, to)
      case Reject(s, d) =>
        if Contains(s, from) && Contains(d, to) then Rejected else ForwardVerdict(rules[1..], chain, matches, from, to)
  }

  /** The packet goes from one of the subnets to another one. */
  ghost predicate Crosses(subnets: seq<Subnet>, from: Address, to: Address) {
    exists s, d :: s in subnets && d in subnets && s != d && Contains(s, from) && Contains(d, to)
  }

  lemma {:induction false} ChainVerdictIs(rules: seq<Rule>, from: Address, to: Address)
    ensures ChainVerdict(rules, from, to) == Rejected <==>
            exists r :: r in rules && r.Reject? && Contains(r.source, from) && Contains(r.destination, to)
    ensures ChainVerdict(rules, from, to).Undecided? || ChainVerdict(rules, from, to).Rejected?
  {
    if rules != [] {
      ChainVerdictIs(rules[1..], from, to);
      assert rules == [rules[0]] + rules[1..];
      var hit := rules[0].Reject? && Contains(rules[0].source, from) && Contains(rules[0].destination, to);
      if hit {
        assert rules[0] in rules;
      } else {
        assert ChainVerdict(rules, from, to) == ChainVerdict(rules[1..], from, to);
      }
    }
  }

  lemma {:induction false} JumpsAreTransparent(rules: seq<Rule>, chain: seq<Rule>,
                                               matches: (nat, Address, Address) -> bool, from: Address, to: Address)
    requires ChainVerdict(chain, from, to).Undecided?
    ensures ForwardVerdict(rules, chain, matches, from, to) == ForwardVerdict(OtherRules(rules), [], matches, from, to)
  {
    if rules != [] {
      JumpsAreTransparent(rules[1..], chain, matches, from, to);
      if rules[0].Jump? {
        assert OtherRules(rules) == OtherRules(rules[1..]);
      } else {
        assert ([rules[0]] + OtherRules(rules[1..]))[1..] == OtherRules(rules[1..]);
      }
    }
  }

  /** After a return a packet is rejected at the top exactly when its ends lie in two of the
      subnets, and every other packet is treated as the other FORWARD rules treated it before. */
  lemma PacketsAfterReturn(before: Tables, subnets: seq<Subnet>, after: Tables,
                           matches: (nat, Address, Address) -> bool, from: Address, to: Address)
    requires Forward in before && NoDuplicates(subnets) && Installed(before, subnets, after)
    ensures ForwardVerdict(after[Forward], after[Isolation], matches, from, to)
         == if Crosses(subnets, from, to) then Rejected
            else ForwardVerdict(OtherRules(before[Forward]), [], matches, from, to)
  {
    RowsMembers(subnets, subnets);
    ChainVerdictIs(after[Isolation], from, to);
    if Crosses(subnets, from, to) {
      var s, d :| s in subnets && d in subnets && s != d && Contains(s, from) && Contains(d, to);
      assert InRows(Reject(s, d), subnets, subnets);
    } else {
      assert ChainVerdict(after[Isolation], from, to).Undecided?;
      JumpsAreTransparent(after[Forward], after[Isolation], matches, from, to);
    }
  }

  /** What a refusal means for a packet that the chain rejects: it gets past the chain, where the
      first rule of FORWARD decides it or there is none. */
  lemma AuditAcceptsIff(t: Tables, matches: (nat, Address, Address) -> bool, from: Address, to: Address)
    requires Forward in t && Isolation in t && ChainVerdict(t[Isolation], from, to) == Rejected
    requires t[Forward] == [] || t[Forward][0].Jump? || (t[Forward][0].Other? && matches(t[Forward][0].number, from, to))
    ensures AuditGuard(t) != Refused <==> ForwardVerdict(t[Forward], t[Isolation], matches, from, to) == Rejected
  {
  }

  /** Where the audit accepts, such a packet is rejected whatever the other rules say. */
  lemma AcceptedChainDecides(t: Tables, matches: (nat, Address, Address) -> bool, from: Address, to: Address)
    requires Forward in t && AuditGuard(t) != Refused && ChainVerdict(t[Isolation], from, to) == Rejected
    ensures ForwardVerdict(t[Forward], t[Isolation], matches, from, to) == Rejected
  {
  }

  /** It refuses where there is no chain, and otherwise counts the reject rules of the chain. */
  lemma AuditCounts(t: Tables)
    requires Forward in t
    ensures Isolation !in t ==> AuditGuard(t) == Refused
    ensures AuditGuard(t) != Refused ==>
              Isolation in t && AuditGuard(t).rejectRules == |set i | 0 <= i < |t[Isolation]| && t[Isolation][i].Reject?|
  {
    if Isolation in t { RejectCountIs(t[Isolation]); }
  }

  lemma {:induction false} RejectCountIs(rules: seq<Rule>)
    ensures RejectCount(rules) == |set i | 0 <= i < |rules| && rules[i].Reject?|
  {
    var at := set i | 0 <= i < |rules| && rules[i].Reject?;
    if rules != [] {
      var n := |rules| - 1;
      RejectCountIs(rules[..n]);
      var before := set i | 0 <= i < n && rules[..n][i].Reject?;
      assert before == set i | 0 <= i < |rules[..n]| && rules[..n][i].Reject?;
      assert at == if rules[n].Reject? then before + {n} else before;
    }
  }

  ghost predicate Disjoint(subnets: seq<Subnet>) {
    forall s, d, a | s in subnets && d in subnets && Contains(s, a) && Contains(d, a) :: s == d
  }

  /** Traffic inside one subnet is never rejected exactly when the subnets are disjoint. */
  lemma InsideTrafficFlowsIffDisjoint(subnets: seq<Subnet>)
    ensures Disjoint(subnets) <==>
            (forall s, from, to :: s in subnets && Contains(s, from) && Contains(s, to) ==> !Crosses(subnets, from, to))
  {
    if !Disjoint(subnets) {
      var s, d, a :| s in subnets && d in subnets && Contains(s, a) && Contains(d, a) && s != d;
      assert Crosses(subnets, a, a);
    }
  }

  /** For disjoint subnets each address has at most one home, and a packet is rejected exactly
      when both ends have one and the homes differ. */
  lemma RejectedIffHomesDiffer(subnets: seq<Subnet>, s: Subnet, d: Subnet, from: Address, to: Address)
    requires Disjoint(subnets) && s in subnets && d in subnets && Contains(s, from) && Contains(d, to)
    ensures Crosses(subnets, from, to) <==> s != d
  {
  }

  // ----- Collecting the subnets -----

  /** list(dict.fromkeys(xs)) */
  function Dedup(xs: seq<Subnet>): (out: seq<Subnet>)
    ensures NoDuplicates(out)
    ensures forall x :: x in out <==> x in xs
  {
    if xs == [] then []
    else
      var before, last := Dedup(xs[..|xs| - 1]), xs[|xs| - 1];
      assert xs == xs[..|xs| - 1] + [last];
      if last in before then before else before + [last]
  }

  /** reconcile_app_network_isolation, from the subnets discovered for each network. */
  method Reconcile(before: Tables, discovered: seq<seq<Subnet>>, oracle: Oracle)
    returns (after: Tables, ending: Ending, subnets: seq<Subnet>, ruleCount: nat)
    requires Forward in before
    ensures NoDuplicates(subnets)
    ensures forall s :: s in subnets <==> exists i :: 0 <= i < |discovered| && s in discovered[i]
    ensures ending == Returned ==> Installed(before, subnets, after) && AuditGuard(after) == Accepted(ruleCount)
  {
    subnets := [];
    for i := 0 to |discovered|
      invariant forall s :: s in subnets <==> exists k :: 0 <= k < i && s in discovered[k]
    {
      subnets := subnets + discovered[i];
    }
    subnets := Dedup(subnets);
    after, ending := EnsureIsolationChain(before, subnets, oracle);
    ruleCount := if |subnets| == 0 then 0 else |subnets| * (|subnets| - 1);
    EveryEndingKeepsOthers(before, subnets, oracle);
    if ending == Returned {
      InstalledPassesAudit(before, subnets, after);
    }
  }

  /** Cancellation is not an ordinary exception, so nothing is restored: cancelled at the flush, a
      call aborts with the chain emptied. Whatever was rejected before, FORWARD now decides as if
      the chain had never been there, and the audit still accepts it if the jump comes first. */
  lemma CancelledFlushLeavesNoRules(before: Tables, subnets: seq<Subnet>, oracle: Oracle,
                                    matches: (nat, Address, Address) -> bool, from: Address, to: Address)
    requires Forward in before && Isolation in before
    requires Begun(oracle) && oracle(2) == Cancelled(true)
    ensures Transaction(before, subnets, oracle) == (before[Isolation := []], Aborted)
    ensures var after := before[Isolation := []];
      && ForwardVerdict(after[Forward], after[Isolation], matches, from, to)
           == ForwardVerdict(OtherRules(before[Forward]), [], matches, from, to)
      && (before[Forward] != [] && before[Forward][0] == Jump ==> AuditGuard(after) == Accepted(0))
  {
    JumpsAreTransparent(before[Forward], [], matches, from, to);
  }

  /** A creation that takes effect but is reported as failed raises before the guarded part: the
      new chain stays behind. */
  lemma HalfCreatedChainStays(before: Tables, subnets: seq<Subnet>, oracle: Oracle)
    requires Forward in before && Isolation !in before && oracle(0).Ok? && oracle(1) == Failed(true)
    ensures Transaction(before, subnets, oracle) == (before[Isolation := []], CreateFailed)
    ensures before[Isolation := []] != before
  {
    assert Isolation in before[Isolation := []];
  }
}
