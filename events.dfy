/**
 * The progress ledger of the events API: a subscriber on the Neuranet topic records, per user
 * (`id`, `org`) and per CMS path, the latest file-processing event, accumulating a percentage for
 * progress events; a query returns a user's records.
 *
 * The shared memory is one in-memory map from user key to that user's records. JavaScript numbers
 * are `Num`s (see module Messages).
 */
module Events {
  import opened Optional
  import opened Messages

  /** A stored record: the message's own fields, its `path` replaced by its CMS path, and `done`. */
  datatype Record = Record(message: ProgressMessage, path: Option<string>, done: bool, result: Option<bool>, percentage: Num)

  /** The ledger's memory: user key to (CMS path to record). */
  type Memory = map<string, map<string, Record>>

  /** What the subscriber did: the memory afterwards, and whether it threw. */
  datatype Applied = Applied(memory: Memory, threw: bool)

  /** `_getmemkey`. */
  function MemKey(id: string, org: string): string {
    id + "_" + org
  }

  /** Two different users that share a memory key, and so share their records. */
  lemma MemKeyCollides()
    ensures MemKey("a_b", "c") == MemKey("a", "b_c") && ("a_b", "c") != ("a", "b_c")
  {
    assert MemKey("a_b", "c") == "a_b_c" == MemKey("a", "b_c");
  }

  /** Only file-processing and file-processed events with a non-empty path are recorded. */
  predicate Relevant(msg: ProgressMessage) {
    (msg.mtype == AidbFileProcessing || msg.mtype == AidbFileProcessed) && msg.path.Some? && msg.path.value != ""
  }

  /** The key a record is stored under: the CMS path, spelled `undefined` when the message has none. */
  function EntryKey(msg: ProgressMessage): string {
    msg.cmspath.GetOr("undefined")
  }

  /** `PERCENTAGE_PREGEN_STEPS / noOfSteps` on JavaScript numbers. */
  function Divide(a: real, b: Option<int>): (r: Num)
    ensures r.Finite? <==> b.Some? && b.value != 0
    ensures r.Finite? ==> r.value * b.value as real == a
  {
    match b
    case None => NonFinite
    case Some(n) => if n == 0 then NonFinite else Finite(a / n as real)
  }

  /** The weight of a progress step: the initial weight, a share of the pre-generation weight, or undefined. */
  function Weight(msg: ProgressMessage, initial: real, pregenSteps: real): Num {
    if msg.stepName == Some(Initial) then Finite(initial)
    else if msg.stepName == Some(Pregen) then Divide(pregenSteps, msg.noOfSteps)
    else Undefined
  }

  /** The record made of a message. */
  function RecordOf(msg: ProgressMessage): (r: Record)
    ensures r.path == msg.cmspath && r.result == msg.result && r.percentage == msg.percentage
    ensures r.done <==> msg.mtype == AidbFileProcessed
  {
    Record(msg, msg.cmspath, msg.mtype == AidbFileProcessed, msg.result, msg.percentage)
  }

  /** The user's records, or an empty map for a user without history. */
  function UserMemory(memory: Memory, key: string): map<string, Record> {
    if key in memory then memory[key] else map[]
  }

  /**
   * The subscriber on one message. An irrelevant message changes nothing. Otherwise the user's map
   * is created if missing; a progress message adds its weight to the stored percentage, and throws
   * (after the user's map was created) when nothing is stored yet for its path; then the record is
   * written at its path, leaving every other path and every other user as they were.
   */
  function Apply(memory: Memory, msg: ProgressMessage, initial: real, pregenSteps: real): (a: Applied)
    ensures !Relevant(msg) ==> a == Applied(memory, false)
    ensures Relevant(msg) ==> MemKey(msg.id, msg.org) in a.memory
    ensures forall k :: k != MemKey(msg.id, msg.org) ==> (k in a.memory <==> k in memory) && (k in memory ==> a.memory[k] == memory[k])
    ensures a.threw <==> Relevant(msg) && msg.subtype == Some(ProgressPercentage)
                         && EntryKey(msg) !in UserMemory(memory, MemKey(msg.id, msg.org))
    ensures a.threw ==> a.memory == memory[MemKey(msg.id, msg.org) := UserMemory(memory, MemKey(msg.id, msg.org))]
    ensures Relevant(msg) && !a.threw ==>
      var old_ := UserMemory(memory, MemKey(msg.id, msg.org));
      var new_ := a.memory[MemKey(msg.id, msg.org)];
      && new_.Keys == old_.Keys + {EntryKey(msg)}
      && (forall p :: p in old_ && p != EntryKey(msg) ==> new_[p] == old_[p])
      && new_[EntryKey(msg)].path == msg.cmspath
      && new_[EntryKey(msg)].result == msg.result
      && (new_[EntryKey(msg)].done <==> msg.mtype == AidbFileProcessed)
      && new_[EntryKey(msg)].percentage
         == (if msg.subtype == Some(ProgressPercentage)
             then AddNum(old_[EntryKey(msg)].percentage, Weight(msg, initial, pregenSteps))
             else msg.percentage)
  {
    if !Relevant(msg) then Applied(memory, false)
    else
      var key := MemKey(msg.id, msg.org);
      var user := UserMemory(memory, key);
      if msg.subtype == Some(ProgressPercentage) then
        if EntryKey(msg) !in user then Applied(memory[key := user], true)
        else
          var updated := msg.(percentage := AddNum(user[EntryKey(msg)].percentage, Weight(msg, initial, pregenSteps)));
          Applied(memory[key := user[EntryKey(msg) := RecordOf(updated)]], false)
      else Applied(memory[key := user[EntryKey(msg) := RecordOf(msg)]], false)
  }

  /** With a finite stored percentage and a finite non-negative weight, a progress message never lowers the percentage. */
  lemma PercentageGrows(memory: Memory, msg: ProgressMessage, initial: real, pregenSteps: real)
    requires Relevant(msg) && msg.subtype == Some(ProgressPercentage)
    requires EntryKey(msg) in UserMemory(memory, MemKey(msg.id, msg.org))
    requires UserMemory(memory, MemKey(msg.id, msg.org))[EntryKey(msg)].percentage.Finite?
    requires Weight(msg, initial, pregenSteps).Finite? && Weight(msg, initial, pregenSteps).value >= 0.0
    ensures var a := Apply(memory, msg, initial, pregenSteps);
      var p := a.memory[MemKey(msg.id, msg.org)][EntryKey(msg)].percentage;
      p.Finite? && p.value >= UserMemory(memory, MemKey(msg.id, msg.org))[EntryKey(msg)].percentage.value
  {
  }

  /** The same message delivered `n` times. */
  function ApplyRepeated(memory: Memory, msg: ProgressMessage, initial: real, pregenSteps: real, n: nat): Memory {
    if n == 0 then memory else Apply(ApplyRepeated(memory, msg, initial, pregenSteps, n - 1), msg, initial, pregenSteps).memory
  }

  /**
   * The percentage is not capped: `n` INITIAL progress steps on a record holding `p` leave
   * `p + n * PERCENTAGE_INITIAL`, past 100 for `n` large enough.
   */
  lemma {:induction false} PercentageUncapped(memory: Memory, msg: ProgressMessage, initial: real, pregenSteps: real, n: nat)
    requires Relevant(msg) && msg.subtype == Some(ProgressPercentage) && msg.stepName == Some(Initial)
    requires EntryKey(msg) in UserMemory(memory, MemKey(msg.id, msg.org))
    requires UserMemory(memory, MemKey(msg.id, msg.org))[EntryKey(msg)].percentage.Finite?
    ensures var m := ApplyRepeated(memory, msg, initial, pregenSteps, n);
      && EntryKey(msg) in UserMemory(m, MemKey(msg.id, msg.org))
      && UserMemory(m, MemKey(msg.id, msg.org))[EntryKey(msg)].percentage
         == Finite(UserMemory(memory, MemKey(msg.id, msg.org))[EntryKey(msg)].percentage.value + n as real * initial)
  {
    if n > 0 {
      PercentageUncapped(memory, msg, initial, pregenSteps, n - 1);
    }
  }

  /** A status query: its `id` and `org`, when present. */
  datatype Query = Query(id: Option<string>, org: Option<string>)

  /** `validateRequest`: both `id` and `org` are present and non-empty. */
  predicate ValidQuery(q: Query) {
    q.id.Some? && q.id.value != "" && q.org.Some? && q.org.value != ""
  }

  /** FALSE_RESULT, or `{events, result:true}`. */
  datatype Response = FalseResult | Events(events: map<string, Record>)

  /** The ledger kept in the shared memory. */
  class ProgressLedger {
    var memory: Memory
    const initial: real
    const pregenSteps: real

    constructor (initial: real, pregenSteps: real)
      ensures memory == map[] && this.initial == initial && this.pregenSteps == pregenSteps
    {
      memory := map[];
      this.initial := initial;
      this.pregenSteps := pregenSteps;
    }

    /** `_getUserMemory`: the user's records, creating an empty map for a user without one. */
    method GetUserMemory(id: string, org: string) returns (user: map<string, Record>)
      modifies this
      ensures user == UserMemory(old(memory), MemKey(id, org))
      ensures memory == old(memory)[MemKey(id, org) := user]
    {
      var key := MemKey(id, org);
      if key !in memory {
        memory := memory[key := map[]];
      }
      user := memory[key];
    }

    /** `calculatePercentage`: the message with its percentage advanced by the step's weight. */
    method CalculatePercentage(msg: ProgressMessage, user: map<string, Record>) returns (updated: ProgressMessage, threw: bool)
      ensures threw <==> EntryKey(msg) !in user
      ensures !threw ==> updated == msg.(percentage := AddNum(user[EntryKey(msg)].percentage, Weight(msg, initial, pregenSteps)))
    {
      if EntryKey(msg) !in user {
        return msg, true;
      }
      var previous := user[EntryKey(msg)].percentage;
      var weight := Undefined;
      if msg.stepName == Some(Initial) {
        weight := Finite(initial);
      }
      if msg.stepName == Some(Pregen) {
        weight := Divide(pregenSteps, msg.noOfSteps);
      }
      updated := msg.(percentage := AddNum(previous, weight));
      threw := false;
    }

    /** The subscriber: returns whether it threw. */
    method OnMessage(msg: ProgressMessage) returns (threw: bool)
      modifies this
      ensures Applied(memory, threw) == Apply(old(memory), msg, initial, pregenSteps)
    {
      if !((msg.mtype == AidbFileProcessing || msg.mtype == AidbFileProcessed) && msg.path.Some? && msg.path.value != "") {
        return false;
      }
      var user := GetUserMemory(msg.id, msg.org);
      var message := msg;
      if msg.subtype == Some(ProgressPercentage) {
        message, threw := CalculatePercentage(msg, user);
        if threw {
          return;
        }
      }
      user := user[EntryKey(message) := Record(message, message.cmspath, message.mtype == AidbFileProcessed,
                                               message.result, message.percentage)];
      memory := memory[MemKey(message.id, message.org) := user];
      threw := false;
    }

    /** `doService`: a valid query answers the user's records, creating an empty map for a user without one. */
    method DoService(q: Query) returns (resp: Response)
      modifies this
      ensures !ValidQuery(q) ==> resp == FalseResult && memory == old(memory)
      ensures ValidQuery(q) ==>
        && resp == Events(UserMemory(old(memory), MemKey(q.id.value, q.org.value)))
        && memory == old(memory)[MemKey(q.id.value, q.org.value) := resp.events]
    {
      if !(q.id.Some? && q.id.value != "" && q.org.Some? && q.org.value != "") {
        return FalseResult;
      }
      var user := GetUserMemory(q.id.value, q.org.value);
      resp := Events(user);
    }
  }
}
