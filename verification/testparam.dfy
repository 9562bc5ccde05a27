/**
 * The simulator's command-line front end: the fixed mapping from argument
 * positions to K3 configuration fields, the parsing of the weights, the
 * batch-refilling seed generator and the five-phase stimulation schedule.
 * `strtof` is a parameter: it yields the parsed value when it consumes the
 * whole argument and nothing otherwise. The assertions of the source are
 * demands on the caller, so they are preconditions here.
 */
module TestParam {
  import opened Outcomes
  import opened K3Set
  import K2Layers

  /** The configuration weights a command line can set, named after the `Arg` enumerators. */
  datatype Field =
    | OB_AON | OB_PC | AON_OB | AON_PG | PC_AON | DPC_OB | DPC_PC | PC_DPC | OB_LAT_E | OB_LAT_I

  /** The configuration field each argument is stored in. */
  function Get(c: K3Config, f: Field): real
  {
    match f
    case OB_AON => c.weights.wOB_AON_lot
    case OB_PC => c.weights.wOB_PC_lot
    case AON_OB => c.weights.wAON_OB_toAntipodal
    case AON_PG => c.wAON_PG_mot
    case PC_AON => c.wPC_AON_toAntipodal
    case DPC_OB => c.weights.wDPC_OB_toAntipodal
    case DPC_PC => c.weights.wDPC_PC
    case PC_DPC => c.weights.wPC_DPC
    case OB_LAT_E => c.wOB_inter.0
    case OB_LAT_I => c.wOB_inter.1
  }

  /** `config` with every field a command line can set cleared: what argument parsing never touches. */
  function Erase(c: K3Config): K3Config
  {
    c.(weights := c.weights.(wOB_AON_lot := 0.0, wOB_PC_lot := 0.0, wAON_OB_toAntipodal := 0.0,
                             wDPC_OB_toAntipodal := 0.0, wDPC_PC := 0.0, wPC_DPC := 0.0),
       wAON_PG_mot := 0.0, wPC_AON_toAntipodal := 0.0, wOB_inter := (0.0, 0.0))
  }

  /** Storing `v` in the field of `f`: that field reads `v`, every other field is as before. */
  function Assign(c: K3Config, f: Field, v: real): (r: K3Config)
    ensures Get(r, f) == v
    ensures forall g :: g != f ==> Get(r, g) == Get(c, g)
    ensures Erase(r) == Erase(c)
  {
    match f
    case OB_AON => c.(weights := c.weights.(wOB_AON_lot := v))
    case OB_PC => c.(weights := c.weights.(wOB_PC_lot := v))
    case AON_OB => c.(weights := c.weights.(wAON_OB_toAntipodal := v))
    case AON_PG => c.(wAON_PG_mot := v)
    case PC_AON => c.(wPC_AON_toAntipodal := v)
    case DPC_OB => c.(weights := c.weights.(wDPC_OB_toAntipodal := v))
    case DPC_PC => c.(weights := c.weights.(wDPC_PC := v))
    case PC_DPC => c.(weights := c.weights.(wPC_DPC := v))
    case OB_LAT_E => c.(wOB_inter := (v, c.wOB_inter.1))
    case OB_LAT_I => c.(wOB_inter := (c.wOB_inter.0, v))
  }

  /** A configuration is determined by its command-line fields and everything else. */
  lemma Extensionality(c: K3Config, d: K3Config)
    requires forall f :: Get(c, f) == Get(d, f)
    requires Erase(c) == Erase(d)
    ensures c == d
  {
    assert Get(c, OB_LAT_E) == Get(d, OB_LAT_E) && Get(c, OB_LAT_I) == Get(d, OB_LAT_I);
    assert Get(c, OB_AON) == Get(d, OB_AON) && Get(c, OB_PC) == Get(d, OB_PC) && Get(c, AON_OB) == Get(d, AON_OB);
    assert Get(c, DPC_OB) == Get(d, DPC_OB) && Get(c, DPC_PC) == Get(d, DPC_PC) && Get(c, PC_DPC) == Get(d, PC_DPC);
    assert Get(c, AON_PG) == Get(d, AON_PG) && Get(c, PC_AON) == Get(d, PC_AON);
    assert Erase(c).weights == Erase(d).weights;
  }

  /** `strtof` with the `errptr` check: the value when the whole argument is a number. */
  type StrToF = string -> Option<real>

  /** Every argument from position 1 to `count` is consumed completely by `strtof`. */
  predicate Parsable(argv: seq<string>, strtof: StrToF, count: nat)
  {
    count < |argv| && forall k :: 1 <= k <= count ==> strtof(argv[k]).Some?
  }

  /** No field appears twice in an argument layout. */
  predicate NoRepeats(args: seq<Field>)
  {
    forall i, j :: 0 <= i < j < |args| ==> args[i] != args[j]
  }

  /**
   * The configuration `base` becomes when, for each position k of `args`,
   * argument k + 1 is parsed into the field `args[k]`, in order.
   */
  function ArgvConfig(argv: seq<string>, base: K3Config, strtof: StrToF, args: seq<Field>): K3Config
    requires Parsable(argv, strtof, |args|)
    decreases |args|
  {
    if |args| == 0 then base
    else
      var n := |args| - 1;
      Assign(ArgvConfig(argv, base, strtof, args[..n]), args[n], strtof(argv[n + 1]).value)
  }

  /**
   * With no field repeated, argument k + 1 ends up in field `args[k]`; the
   * fields not in the layout and everything else keep their values from
   * `base`.
   */
  lemma {:induction false} ArgvConfigFields(argv: seq<string>, base: K3Config, strtof: StrToF, args: seq<Field>)
    requires Parsable(argv, strtof, |args|) && NoRepeats(args)
    ensures forall k :: 0 <= k < |args| ==> Get(ArgvConfig(argv, base, strtof, args), args[k]) == strtof(argv[k + 1]).value
    ensures forall f :: f !in args ==> Get(ArgvConfig(argv, base, strtof, args), f) == Get(base, f)
    ensures Erase(ArgvConfig(argv, base, strtof, args)) == Erase(base)
  {
    if |args| > 0 {
      var n := |args| - 1;
      var init := args[..n];
      ArgvConfigFields(argv, base, strtof, init);
      forall f | f !in args
        ensures Get(ArgvConfig(argv, base, strtof, args), f) == Get(base, f)
      {
        assert f != args[n] && f !in init;
      }
      forall k | 0 <= k < n
        ensures Get(ArgvConfig(argv, base, strtof, args), args[k]) == strtof(argv[k + 1]).value
      {
        assert args[k] == init[k] && args[k] != args[n];
      }
    }
  }

  /** Two configurations that agree on the fields of a layout and on every field outside it agree on every field. */
  lemma AgreeOnFields(c: K3Config, d: K3Config, args: seq<Field>)
    requires forall k :: 0 <= k < |args| ==> Get(c, args[k]) == Get(d, args[k])
    requires forall f :: f !in args ==> Get(c, f) == Get(d, f)
    ensures forall f :: Get(c, f) == Get(d, f)
  {
    forall f ensures Get(c, f) == Get(d, f) {
      if f in args {
        var k :| 0 <= k < |args| && args[k] == f;
      }
    }
  }

  // The `Arg` enumerators: argument positions, the program name at 0.
  const PROGNAME: nat := 0
  const W_OB_AON: nat := 1
  const W_OB_PC: nat := 2
  const W_AON_OB: nat := 3
  const W_AON_PG: nat := 4
  const W_PC_AON: nat := 5
  const W_DPC_OB: nat := 6
  const W_DPC_PC: nat := 7
  const W_PC_DPC: nat := 8
  const W_OB_LAT_E: nat := 9
  const W_OB_LAT_I: nat := 10
  const NARGS: nat := 11

  /** The field each argument after the program name feeds, in argument order. */
  const ARGS: seq<Field> := [OB_AON, OB_PC, AON_OB, AON_PG, PC_AON, DPC_OB, DPC_PC, PC_DPC, OB_LAT_E, OB_LAT_I]

  const NUM_UNITS: nat := 5
  const PROCEDURE_DURATION_MS: nat := 5000

  /** Every field appears in the layout exactly once, and the layout fills positions 1 to `NARGS - 1`. */
  lemma ArgsLayout()
    ensures |ARGS| == NARGS - 1 && NoRepeats(ARGS)
    ensures forall f :: f in ARGS
  {
    forall f ensures f in ARGS {
      match f
      case OB_AON => assert ARGS[0] == f;
      case OB_PC => assert ARGS[1] == f;
      case AON_OB => assert ARGS[2] == f;
      case AON_PG => assert ARGS[3] == f;
      case PC_AON => assert ARGS[4] == f;
      case DPC_OB => assert ARGS[5] == f;
      case DPC_PC => assert ARGS[6] == f;
      case PC_DPC => assert ARGS[7] == f;
      case OB_LAT_E => assert ARGS[8] == f;
      case OB_LAT_I => assert ARGS[9] == f;
    }
  }

  /** The configuration `parseArgs` starts from: no output monitoring, a history as long as the procedure. */
  function Prepared(base: K3Config): K3Config
  {
    base.(outputActivityMonitoring := 0, outputHistorySize := PROCEDURE_DURATION_MS)
  }

  /** What `parseArgs` returns for `argv`, starting from the default configuration `base`. */
  function Parsed(argv: seq<string>, base: K3Config, strtof: StrToF): K3Config
    requires Parsable(argv, strtof, NARGS - 1)
  {
    ArgvConfig(argv, Prepared(base), strtof, ARGS)
  }

  /**
   * The parsed configuration is valid exactly when the OB-to-AON,
   * OB-to-PC, AON-to-OB, DPC-to-OB and DPC-to-PC arguments are positive,
   * the PC-to-DPC argument is negative and the four weights no argument
   * sets are valid in `base`: the AON-to-PG, PC-to-AON and the two lateral
   * bulb arguments are never checked.
   */
  lemma ParsedValidity(argv: seq<string>, base: K3Config, strtof: StrToF)
    requires Parsable(argv, strtof, NARGS - 1)
    ensures var w := base.weights;
      Parsed(argv, base, strtof).CheckWeightsValidity() <==>
        && strtof(argv[W_OB_AON]).value > 0.0 && strtof(argv[W_OB_PC]).value > 0.0
        && strtof(argv[W_AON_OB]).value > 0.0 && strtof(argv[W_DPC_OB]).value > 0.0
        && strtof(argv[W_DPC_PC]).value > 0.0 && strtof(argv[W_PC_DPC]).value < 0.0
        && w.wPON_interUnit > 0.0 && w.wPON_OB > 0.0 && w.wAON_PON_mot > 0.0 && w.wAON_noise > 0.0
  {
    ArgsLayout();
    ArgvConfigFields(argv, Prepared(base), strtof, ARGS);
    var c := Parsed(argv, base, strtof);
    assert Erase(c).weights == Erase(Prepared(base)).weights;
    assert Get(c, ARGS[0]) == strtof(argv[W_OB_AON]).value && Get(c, ARGS[1]) == strtof(argv[W_OB_PC]).value;
    assert Get(c, ARGS[2]) == strtof(argv[W_AON_OB]).value && Get(c, ARGS[5]) == strtof(argv[W_DPC_OB]).value;
    assert Get(c, ARGS[6]) == strtof(argv[W_DPC_PC]).value && Get(c, ARGS[7]) == strtof(argv[W_PC_DPC]).value;
  }

  /**
   * `parseArgs(argc, argv)`: at least `NARGS` arguments, each a whole
   * number, and the result must pass `checkWeightsValidity()`. The fields
   * are filled one assignment at a time, as the source does.
   */
  method ParseArgs(argv: seq<string>, base: K3Config, strtof: StrToF) returns (config: K3Config)
    requires |argv| >= NARGS && Parsable(argv, strtof, NARGS - 1)
    requires Parsed(argv, base, strtof).CheckWeightsValidity()
    ensures config == Parsed(argv, base, strtof)
    ensures config.outputActivityMonitoring == 0 && config.outputHistorySize == PROCEDURE_DURATION_MS
    ensures forall k :: 0 <= k < |ARGS| ==> Get(config, ARGS[k]) == strtof(argv[k + 1]).value
    ensures config.CheckWeightsValidity()
  {
    config := base.(outputActivityMonitoring := 0, outputHistorySize := PROCEDURE_DURATION_MS);
    config := config.(weights := config.weights.(wOB_AON_lot := strtof(argv[W_OB_AON]).value));
    config := config.(weights := config.weights.(wOB_PC_lot := strtof(argv[W_OB_PC]).value));
    config := config.(weights := config.weights.(wAON_OB_toAntipodal := strtof(argv[W_AON_OB]).value));
    config := config.(wAON_PG_mot := strtof(argv[W_AON_PG]).value);
    config := config.(wPC_AON_toAntipodal := strtof(argv[W_PC_AON]).value);
    config := config.(weights := config.weights.(wDPC_OB_toAntipodal := strtof(argv[W_DPC_OB]).value));
    config := config.(weights := config.weights.(wDPC_PC := strtof(argv[W_DPC_PC]).value));
    config := config.(weights := config.weights.(wPC_DPC := strtof(argv[W_PC_DPC]).value));
    config := config.(wOB_inter := (strtof(argv[W_OB_LAT_E]).value, config.wOB_inter.1));
    config := config.(wOB_inter := (config.wOB_inter.0, strtof(argv[W_OB_LAT_I]).value));
    ArgsLayout();
    ArgvConfigFields(argv, Prepared(base), strtof, ARGS);
    Extensionality(config, Parsed(argv, base, strtof));
  }

  /** The number of seeds `randomDeviceSeedGenerator` draws at a time. */
  const BATCH_SIZE: nat := 32

  /**
   * Entry `k` of what `std::seed_seq::generate` writes into a batch for
   * `seed`: that function depends only on the stored seed and the position,
   * so every batch it fills is the same.
   */
  type SeedSeq = (nat, nat) -> nat

  /** A batch as filled by `seedGen.generate(batch.begin(), batch.end())`. */
  function Generated(seed: nat, generate: SeedSeq): (b: seq<nat>)
    ensures |b| == BATCH_SIZE
  {
    seq(BATCH_SIZE, k requires 0 <= k => generate(seed, k))
  }

  /**
   * `randomDeviceSeedGenerator(seed)`: the lambda it returns, with its
   * captured batch (32 zeros at first) and index (31 at first). `calls`
   * counts the draws and `refills` the batches generated.
   */
  class SeedGenerator {
    const seed: nat
    const generate: SeedSeq
    var batch: seq<nat>
    var i: nat
    ghost var calls: nat
    ghost var refills: nat

    /**
     * The index is one behind the number of draws, modulo the batch size;
     * the batch is refilled on the first draw and on every 32nd after it,
     * and once filled it always holds the generated batch.
     */
    ghost predicate Valid()
      reads this
    {
      && |batch| == BATCH_SIZE
      && i == (calls + BATCH_SIZE - 1) % BATCH_SIZE
      && refills == (calls + BATCH_SIZE - 1) / BATCH_SIZE
      && batch == (if calls == 0 then seq(BATCH_SIZE, _ => 0) else Generated(seed, generate))
    }

    constructor (seed: nat, generate: SeedSeq)
      ensures Valid() && calls == 0 && refills == 0
      ensures this.seed == seed && this.generate == generate
    {
      this.seed, this.generate := seed, generate;
      batch := seq(BATCH_SIZE, _ => 0);
      i := BATCH_SIZE - 1;
      calls, refills := 0, 0;
    }

    /**
     * One draw: the index advances, the batch is regenerated when the index
     * reaches the batch size, and the entry at the index is returned. Draw
     * number `calls` (from 1) yields entry `(calls - 1) % 32` of the
     * generated batch, so the seeds repeat every 32 draws.
     */
    method Next() returns (r: nat)
      requires Valid()
      modifies this`batch, this`i, this`calls, this`refills
      ensures Valid() && calls == old(calls) + 1
      ensures refills == old(refills) + (if old(calls) % BATCH_SIZE == 0 then 1 else 0)
      ensures i < BATCH_SIZE && r == batch[i]
      ensures r == generate(seed, (calls - 1) % BATCH_SIZE)
    {
      i := i + 1;
      calls := calls + 1;
      if i == |batch| {
        batch := Generated(seed, generate);
        i := 0;
        refills := refills + 1;
      }
      r := batch[i];
    }
  }

  /** A call the simulation makes on the K3: rest, or present a pattern, for a number of milliseconds. */
  datatype Step = Rest(ms: nat) | Present(ms: nat, pattern: seq<real>)

  /** A pattern with a single 1, at `unit`. */
  function OneHot(n: nat, unit: nat): (p: seq<real>)
    requires unit < n
    ensures |p| == n && p[unit] == 1.0
    ensures forall j :: 0 <= j < n && j != unit ==> p[j] == 0.0
  {
    seq(n, j => if j == unit then 1.0 else 0.0)
  }

  /** The calls of `doSimulation` in order: rest, present at the first unit, rest, present at the last unit, rest. */
  function Schedule(): seq<Step>
  {
    [Rest(1000), Present(1000, OneHot(NUM_UNITS, 0)), Rest(1000), Present(1000, OneHot(NUM_UNITS, NUM_UNITS - 1)), Rest(1000)]
  }

  /** The total time the steps take. */
  function Duration(steps: seq<Step>): nat
  {
    if |steps| == 0 then 0 else Duration(steps[..|steps| - 1]) + steps[|steps| - 1].ms
  }

  /**
   * The schedule has five 1000 ms phases, the even ones rests and the odd
   * ones presentations of a single active unit, and lasts exactly the
   * procedure duration.
   */
  lemma ScheduleShape()
    ensures |Schedule()| == 5 && Duration(Schedule()) == PROCEDURE_DURATION_MS
    ensures forall k :: 0 <= k < 5 ==> Schedule()[k].ms == 1000 && (Schedule()[k].Rest? <==> k % 2 == 0)
    ensures forall k :: 0 <= k < 5 && Schedule()[k].Present? ==>
              |Schedule()[k].pattern| == NUM_UNITS && K2Layers.Sum(Schedule()[k].pattern) == 1.0
  {
    UniformDuration(Schedule());
    OneHotSum(NUM_UNITS, 0);
    OneHotSum(NUM_UNITS, NUM_UNITS - 1);
  }

  /** Steps that each take 1000 ms take 1000 ms apiece in total. */
  lemma {:induction false} UniformDuration(steps: seq<Step>)
    requires forall k :: 0 <= k < |steps| ==> steps[k].ms == 1000
    ensures Duration(steps) == 1000 * |steps|
    decreases |steps|
  {
    if |steps| > 0 {
      UniformDuration(steps[..|steps| - 1]);
    }
  }

  /** A one-hot pattern sums to one. */
  lemma {:induction false} OneHotSum(n: nat, unit: nat)
    requires unit < n
    ensures K2Layers.Sum(OneHot(n, unit)) == 1.0
  {
    var p := OneHot(n, unit);
    var k := 0;
    while k < n
      invariant k <= n && K2Layers.Sum(p[..k]) == (if unit < k then 1.0 else 0.0)
    {
      assert p[..k + 1][..k] == p[..k];
      k := k + 1;
    }
    assert p[..n] == p;
  }

  /**
   * `doSimulation(model)`: the calls made on the model, in order. The
   * pattern is built once, and its first entry is cleared before the last
   * one is set for the second presentation.
   */
  method DoSimulation() returns (steps: seq<Step>)
    ensures steps == Schedule()
  {
    steps := [Rest(1000)];
    var pattern := seq(NUM_UNITS, _ => 0.0);
    pattern := pattern[0 := 1.0];
    assert pattern == OneHot(NUM_UNITS, 0);
    steps := steps + [Present(1000, pattern)];
    steps := steps + [Rest(1000)];
    pattern := pattern[0 := 0.0];
    pattern := pattern[NUM_UNITS - 1 := 1.0];
    assert pattern == OneHot(NUM_UNITS, NUM_UNITS - 1);
    steps := steps + [Present(1000, pattern)];
    steps := steps + [Rest(1000)];
  }
}
