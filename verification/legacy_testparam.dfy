/**
 * The earlier command-line front end: eight weights instead of ten (the
 * DPC-to-PC and PC-to-DPC weights keep their defaults), no output settings,
 * and the same seed generator, `TestParam.SeedGenerator`.
 */
module LegacyTestParam {
  import opened Outcomes
  import opened K3Set
  import TestParam

  // The `Arg` enumerators of this front end.
  const PROGNAME: nat := 0
  const W_OB_AON: nat := 1
  const W_OB_PC: nat := 2
  const W_AON_OB: nat := 3
  const W_AON_PG: nat := 4
  const W_PC_AON: nat := 5
  const W_DPC_OB: nat := 6
  const W_OB_LAT_E: nat := 7
  const W_OB_LAT_I: nat := 8
  const NARGS: nat := 9

  /** The field each argument after the program name feeds, in argument order. */
  const ARGS: seq<TestParam.Field> :=
    [TestParam.OB_AON, TestParam.OB_PC, TestParam.AON_OB, TestParam.AON_PG,
     TestParam.PC_AON, TestParam.DPC_OB, TestParam.OB_LAT_E, TestParam.OB_LAT_I]

  /** What `parseArgs` returns for `argv`, starting from the default configuration `base`. */
  function Parsed(argv: seq<string>, base: K3Config, strtof: TestParam.StrToF): K3Config
    requires TestParam.Parsable(argv, strtof, NARGS - 1)
  {
    TestParam.ArgvConfig(argv, base, strtof, ARGS)
  }

  /**
   * The layout repeats no field and leaves out exactly the DPC-to-PC and
   * PC-to-DPC weights.
   */
  lemma ArgsLayout()
    ensures |ARGS| == NARGS - 1 && TestParam.NoRepeats(ARGS)
    ensures forall f :: f !in ARGS <==> f == TestParam.DPC_PC || f == TestParam.PC_DPC
  {
    forall f ensures f !in ARGS <==> f == TestParam.DPC_PC || f == TestParam.PC_DPC {
      match f
      case OB_AON => assert ARGS[0] == f;
      case OB_PC => assert ARGS[1] == f;
      case AON_OB => assert ARGS[2] == f;
      case AON_PG => assert ARGS[3] == f;
      case PC_AON => assert ARGS[4] == f;
      case DPC_OB => assert ARGS[5] == f;
      case DPC_PC =>
      case PC_DPC =>
      case OB_LAT_E => assert ARGS[6] == f;
      case OB_LAT_I => assert ARGS[7] == f;
    }
  }

  /** The DPC-to-PC and PC-to-DPC weights keep the values of `base`. */
  lemma DpcWeightsKept(argv: seq<string>, base: K3Config, strtof: TestParam.StrToF)
    requires TestParam.Parsable(argv, strtof, NARGS - 1)
    ensures Parsed(argv, base, strtof).weights.wDPC_PC == base.weights.wDPC_PC
    ensures Parsed(argv, base, strtof).weights.wPC_DPC == base.weights.wPC_DPC
  {
    ArgsLayout();
    TestParam.ArgvConfigFields(argv, base, strtof, ARGS);
    assert TestParam.Get(Parsed(argv, base, strtof), TestParam.DPC_PC) == TestParam.Get(base, TestParam.DPC_PC);
    assert TestParam.Get(Parsed(argv, base, strtof), TestParam.PC_DPC) == TestParam.Get(base, TestParam.PC_DPC);
  }

  /**
   * Starting from valid default weights, the parsed configuration is valid
   * exactly when the OB-to-AON, OB-to-PC, AON-to-OB and DPC-to-OB arguments
   * are positive: the other four arguments are never checked.
   */
  lemma ParsedValidity(argv: seq<string>, base: K3Config, strtof: TestParam.StrToF)
    requires TestParam.Parsable(argv, strtof, NARGS - 1)
    requires base.CheckWeightsValidity()
    ensures Parsed(argv, base, strtof).CheckWeightsValidity() <==>
              && strtof(argv[W_OB_AON]).value > 0.0 && strtof(argv[W_OB_PC]).value > 0.0
              && strtof(argv[W_AON_OB]).value > 0.0 && strtof(argv[W_DPC_OB]).value > 0.0
  {
    DpcWeightsKept(argv, base, strtof);
    ArgsLayout();
    TestParam.ArgvConfigFields(argv, base, strtof, ARGS);
    var c := Parsed(argv, base, strtof);
    assert TestParam.Erase(c).weights == TestParam.Erase(base).weights;
    assert TestParam.Get(c, ARGS[0]) == strtof(argv[W_OB_AON]).value && TestParam.Get(c, ARGS[1]) == strtof(argv[W_OB_PC]).value;
    assert TestParam.Get(c, ARGS[2]) == strtof(argv[W_AON_OB]).value && TestParam.Get(c, ARGS[5]) == strtof(argv[W_DPC_OB]).value;
  }

  /**
   * `parseArgs(argc, argv)`: at least `NARGS` arguments, each read in
   * full by `strtof`, and the result must pass `checkWeightsValidity()`.
   */
  method ParseArgs(argv: seq<string>, base: K3Config, strtof: TestParam.StrToF) returns (config: K3Config)
    requires |argv| >= NARGS && TestParam.Parsable(argv, strtof, NARGS - 1)
    requires Parsed(argv, base, strtof).CheckWeightsValidity()
    ensures config == Parsed(argv, base, strtof)
    ensures forall k :: 0 <= k < |ARGS| ==> TestParam.Get(config, ARGS[k]) == strtof(argv[k + 1]).value
    ensures config.CheckWeightsValidity()
  {
    config := base;
    config := config.(weights := config.weights.(wOB_AON_lot := strtof(argv[W_OB_AON]).value));
    config := config.(weights := config.weights.(wOB_PC_lot := strtof(argv[W_OB_PC]).value));
    config := config.(weights := config.weights.(wAON_OB_toAntipodal := strtof(argv[W_AON_OB]).value));
    config := config.(wAON_PG_mot := strtof(argv[W_AON_PG]).value);
    config := config.(wPC_AON_toAntipodal := strtof(argv[W_PC_AON]).value);
    config := config.(weights := config.weights.(wDPC_OB_toAntipodal := strtof(argv[W_DPC_OB]).value));
    config := config.(wOB_inter := (strtof(argv[W_OB_LAT_E]).value, config.wOB_inter.1));
    config := config.(wOB_inter := (config.wOB_inter.0, strtof(argv[W_OB_LAT_I]).value));
    ArgsLayout();
    TestParam.ArgvConfigFields(argv, base, strtof, ARGS);
    TestParam.AgreeOnFields(config, Parsed(argv, base, strtof), ARGS);
    TestParam.Extensionality(config, Parsed(argv, base, strtof));
  }
}
