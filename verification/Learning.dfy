/**
 * The learning record of one task: what its validation accepts, and what one
 * observed input and output does to it.
 */
module Learning {
  import opened Texts
  import opened Json
  import opened Cells
  import Canonical
  import Reader

  const MAX_EXAMPLES := 100
  const MAX_COUNTER: int := 0x7FFF_FFFF_FFFF_FFFF

  /** One retained input and output, under their hashes. */
  datatype Example = Example(inputHash: Text, outputHash: Text, input: Json, output: Json)

  datatype Cause = NoCause | InputHashCollision | OutputConflict

  datatype Memory = Memory(revision: int, quarantined: bool, cause: Cause, conflicts: int, attempts: int, lastBuild: int,
                           examples: seq<Example>)

  const EMPTY := Memory(0, false, NoCause, 0, 0, 0, [])

  /** The learner's settings. */
  datatype Settings = Settings(minExamples: nat, maxExamples: nat, maxExampleBytes: nat, hasBuilder: bool, autoActivate: bool)

  predicate SettingsOk(c: Settings) {
    1 <= c.minExamples <= c.maxExamples <= MAX_EXAMPLES
  }

  // ----- validation -----

  predicate CounterOk(n: int) {
    0 <= n <= MAX_COUNTER
  }

  predicate ExampleOk(e: Example) {
    e.inputHash == ContentHash(e.input) && e.outputHash == ContentHash(e.output)
  }

  /** The examples are a function of their input. */
  predicate DistinctInputs(examples: seq<Example>) {
    forall i, j :: 0 <= i < j < |examples| ==> examples[i].inputHash != examples[j].inputHash
  }

  /** Everything `_validate_state` checks. */
  predicate MemoryOk(m: Memory) {
    && CounterOk(m.revision) && CounterOk(m.conflicts) && CounterOk(m.attempts) && CounterOk(m.lastBuild)
    && (m.quarantined <==> !m.cause.NoCause?)
    && |m.examples| <= MAX_EXAMPLES
    && m.lastBuild <= |m.examples|
    && (forall i :: 0 <= i < |m.examples| ==> ExampleOk(m.examples[i]))
    && DistinctInputs(m.examples)
  }

  /** `_validate_state`, which remembers the input hashes it has seen. */
  method ValidateMemory(m: Memory) returns (ok: bool)
    ensures ok <==> MemoryOk(m)
  {
    hide ContentHash;
    if !CounterOk(m.revision) || !CounterOk(m.conflicts) || !CounterOk(m.attempts) || !CounterOk(m.lastBuild) {
      return false;
    }
    if m.quarantined != !m.cause.NoCause? {
      return false;
    }
    if |m.examples| > MAX_EXAMPLES || m.lastBuild > |m.examples| {
      return false;
    }
    var seen: set<Text> := {};
    for i := 0 to |m.examples|
      invariant forall j :: 0 <= j < i ==> ExampleOk(m.examples[j]) && m.examples[j].inputHash in seen
      invariant forall j, k :: 0 <= j < k < i ==> m.examples[j].inputHash != m.examples[k].inputHash
      invariant forall t :: t in seen ==> exists j :: 0 <= j < i && m.examples[j].inputHash == t
    {
      if !ExampleOk(m.examples[i]) || m.examples[i].inputHash in seen {
        return false;
      }
      seen := seen + {m.examples[i].inputHash};
    }
    ok := true;
  }

  // ----- one observation -----

  const INPUT_HASH := Ascii("input_hash")
  const OUTPUT_HASH := Ascii("output_hash")
  const INPUT := Ascii("input")
  const OUTPUT := Ascii("output")

  function ExampleJson(e: Example): Json {
    Obj([Field(INPUT_HASH, Str(e.inputHash)), Field(OUTPUT_HASH, Str(e.outputHash)), Field(INPUT, e.input), Field(OUTPUT, e.output)])
  }

  /** `_make_example`, unless it is too large to retain. */
  function MakeExample(input: Json, output: Json, c: Settings): Option<Example> {
    var e := Example(ContentHash(input), ContentHash(output), input, output);
    match Reader.CanonicalBytes(ExampleJson(e))
    case None => None
    case Some(raw) => if |raw| > c.maxExampleBytes then None else Some(e)
  }

  /** The retained example with the given input hash. */
  function FindExample(examples: seq<Example>, inputHash: Text): Option<Example> {
    if examples == [] then None
    else if examples[0].inputHash == inputHash then Some(examples[0])
    else FindExample(examples[1..], inputHash)
  }

  datatype Status = Quarantined | ExampleTooLarge | Duplicate | CapacityReached | Observed | BuilderUnavailable
                  | BuildInProgress | BuildDeferred | BuildReserved

  /** What an observation does: nothing, or one write that may also reserve a build. */
  datatype Plan = Keep(status: Status) | Write(memory: Memory, status: Status)

  function Quarantine(m: Memory, cause: Cause): Memory {
    m.(quarantined := true, cause := cause, conflicts := m.conflicts + 1, revision := m.revision + 1)
  }

  function Retain(m: Memory, e: Example): Memory {
    m.(examples := m.examples + [e], revision := m.revision + 1)
  }

  /** The decision of `_learn` once no candidate exists. */
  function Decide(m: Memory, input: Json, output: Json, building: bool, c: Settings): Plan {
    if m.quarantined then Keep(Quarantined)
    else
      var made := MakeExample(input, output, c);
      if made.None? then Keep(ExampleTooLarge)
      else DecideExample(m, made.value, building, c)
  }

  function DecideExample(m: Memory, e: Example, building: bool, c: Settings): Plan {
    var existing := FindExample(m.examples, e.inputHash);
    if existing.Some? then
      if Canonical.Render(existing.value.input) != Canonical.Render(e.input) then
        Write(Quarantine(m, InputHashCollision), Quarantined)
      else if existing.value.outputHash != e.outputHash
              || Canonical.Render(existing.value.output) != Canonical.Render(e.output) then
        Write(Quarantine(m, OutputConflict), Quarantined)
      else Keep(Duplicate)
    else if |m.examples| >= c.maxExamples then Keep(CapacityReached)
    else
      var next, count := Retain(m, e), |m.examples| + 1;
      if count < c.minExamples then Write(next, Observed)
      else if !c.hasBuilder then Write(next, BuilderUnavailable)
      else if building then Write(next, BuildInProgress)
      else if next.lastBuild >= count then Write(next, BuildDeferred)
      else Write(next.(lastBuild := count, attempts := m.attempts + 1), BuildReserved)
  }

  // ----- what an observation keeps -----

  /** Counters of builds never run ahead of the examples they were started on. */
  predicate CursorsOk(m: Memory) {
    0 <= m.attempts <= m.lastBuild <= |m.examples|
  }

  /** Examples are only appended, quarantine is never lifted, and every change raises the revision. */
  predicate MemoryGrows(m: Memory, n: Memory) {
    m == n ||
    (m.revision < n.revision && m.examples <= n.examples && (m.quarantined ==> n.quarantined)
     && m.attempts <= n.attempts && m.lastBuild <= n.lastBuild && m.conflicts <= n.conflicts
     && (m.attempts < n.attempts ==> m.lastBuild < n.lastBuild))
  }

  lemma MemoryGrowsTransitive(m: Memory, n: Memory, o: Memory)
    requires MemoryGrows(m, n) && MemoryGrows(n, o)
    ensures MemoryGrows(m, o)
  {
  }

  lemma {:induction false} FindExampleFinds(examples: seq<Example>, inputHash: Text)
    ensures var r := FindExample(examples, inputHash);
            if r.Some? then r.value in examples && r.value.inputHash == inputHash
            else forall i :: 0 <= i < |examples| ==> examples[i].inputHash != inputHash
  {
    if examples != [] {
      FindExampleFinds(examples[1..], inputHash);
      assert examples == [examples[0]] + examples[1..];
    }
  }

  /**
   * Whatever an observation writes extends the record: distinct inputs stay
   * distinct, the cursors stay ordered, a reserved build moves its cursor up,
   * and an unchanged example set is never rebuilt.
   */
  lemma DecideExtends(m: Memory, input: Json, output: Json, building: bool, c: Settings)
    requires MemoryOk(m) && CursorsOk(m) && SettingsOk(c)
    ensures var p := Decide(m, input, output, building, c);
            && !p.status.BuildDeferred?
            && (p.Write? ==>
                  && !m.quarantined
                  && MemoryGrows(m, p.memory) && m != p.memory && CursorsOk(p.memory)
                  && (p.memory.quarantined <==> !p.memory.cause.NoCause?)
                  && |p.memory.examples| <= MAX_EXAMPLES
                  && (forall i :: 0 <= i < |p.memory.examples| ==> ExampleOk(p.memory.examples[i]))
                  && DistinctInputs(p.memory.examples)
                  && (p.memory.quarantined ==> p.memory.examples == m.examples && !p.status.BuildReserved?))
            && (p.status.BuildReserved? ==>
                  && p.Write? && !building && c.hasBuilder
                  && p.memory.lastBuild == |p.memory.examples| > m.lastBuild && p.memory.attempts == m.attempts + 1)
  {
    hide ContentHash, Canonical.Render;
    var made := MakeExample(input, output, c);
    if !m.quarantined && made.Some? {
      FindExampleFinds(m.examples, made.value.inputHash);
    }
  }

  /** A counter that only ever rises has no room left. */
  predicate CountersFull(m: Memory) {
    m.revision == MAX_COUNTER || m.conflicts == MAX_COUNTER
  }

  /** What an observation would write always passes validation, as long as the counters have room. */
  lemma DecideIsStorable(m: Memory, input: Json, output: Json, building: bool, c: Settings)
    requires MemoryOk(m) && CursorsOk(m) && SettingsOk(c) && !CountersFull(m)
    ensures var p := Decide(m, input, output, building, c); p.Write? ==> MemoryOk(p.memory)
  {
    hide ContentHash, Canonical.Render, Reader.CanonicalBytes, FindExample;
    DecideExtends(m, input, output, building, c);
  }

  /**
   * Exactly when an observation quarantines: the input is already retained with
   * an output of another canonical form.  A hash collision is not among the causes.
   */
  lemma QuarantineIsConflict(m: Memory, input: Json, output: Json, building: bool, c: Settings)
    requires MemoryOk(m) && !m.quarantined
    ensures var p := Decide(m, input, output, building, c);
            (p.Write? && p.memory.quarantined) <==>
              && MakeExample(input, output, c).Some?
              && exists i :: 0 <= i < |m.examples| && m.examples[i].inputHash == ContentHash(input)
                             && m.examples[i].outputHash != ContentHash(output)
    ensures var p := Decide(m, input, output, building, c);
            p.Write? && p.memory.quarantined ==> p.memory.cause.OutputConflict?
  {
    hide Reader.CanonicalBytes, Canonical.Render;
    var made := MakeExample(input, output, c);
    if made.Some? {
      var h := made.value.inputHash;
      FindExampleFinds(m.examples, h);
      var existing := FindExample(m.examples, h);
      if existing.Some? {
        var i :| 0 <= i < |m.examples| && m.examples[i] == existing.value;
        assert ExampleOk(m.examples[i]);
        OneExample(m, i, h);
      }
    }
  }

  lemma OneExample(m: Memory, i: nat, h: Text)
    requires MemoryOk(m) && i < |m.examples| && m.examples[i].inputHash == h
    ensures forall j :: 0 <= j < |m.examples| && m.examples[j].inputHash == h ==> j == i
  {
    hide ContentHash;
  }
}
