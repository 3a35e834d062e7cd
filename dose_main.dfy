/** The `dose` executable's command line: option pairs, their defaults, the
    choice between batch and interactive runs, and the end-of-run tables. */
module DoseMain {
  import opened Units
  import opened VoxelGrid
  import opened Particles
  import opened DetectorMatrix

  /** What main has gathered from the command line; `ui` says whether an
      interactive session object exists. */
  datatype Settings = Settings(macro: string, visMacro: string, onOffUI: string, numberOfEvent: int, ui: bool)

  /** Usage: the usage text is printed and main returns 1.
      MissingValue: the last flag has no value, so main reads argv[argc],
      the null entry past the argument list. */
  datatype Parse = Usage | MissingValue | Parsed(settings: Settings)

  const MaxArgc := 9
  const DefaultMacro := "mac/init.mac"
  const DefaultOnOffUI := "off"
  const DefaultVisMacro := "mac/vis1.mac"
  const ExecuteCommand := "/control/execute "

  predicate IsFlag(a: string)
  {
    a == "-m" || a == "-ui" || a == "-vm" || a == "-n"
  }

  /** The empty start values: no macro, no UI choice, zero events. */
  function Initial(): (s: Settings)
    ensures s.macro == "" && s.visMacro == "" && s.onOffUI == ""
    ensures s.numberOfEvent == 0 && !s.ui
  {
    Settings("", "", "", 0, false)
  }

  /** The effect of one recognised flag and its value; `toInt` stands for
      the toolkit's string-to-integer conversion. */
  function Apply(flag: string, value: string, s: Settings, toInt: string -> int): (r: Settings)
    requires IsFlag(flag)
    ensures flag == "-m" ==> r == s.(macro := value)
    ensures flag == "-ui" ==> r == s.(onOffUI := value, ui := s.ui || value == "on")
    ensures flag == "-vm" ==> r == s.(visMacro := value, onOffUI := "on", ui := true)
    ensures flag == "-n" ==> r == s.(numberOfEvent := toInt(value))
  {
    if flag == "-m" then s.(macro := value)
    else if flag == "-ui" then s.(onOffUI := value, ui := s.ui || value == "on")
    else if flag == "-vm" then s.(visMacro := value, onOffUI := "on", ui := true)
    else s.(numberOfEvent := toInt(value))
  }

  /** The pairs from position p on, applied left to right. */
  function Scan(args: seq<string>, p: nat, s: Settings, toInt: string -> int): (r: Parse)
    decreases |args| - p
  {
    if p >= |args| then Parsed(s)
    else if !IsFlag(args[p]) then Usage
    else if p + 1 == |args| then MissingValue
    else Scan(args, p + 2, Apply(args[p], args[p + 1], s, toInt), toInt)
  }

  /** Empty values take their defaults; the event count and the UI are kept. */
  function WithDefaults(s: Settings): (r: Settings)
    ensures r.macro == (if s.macro == "" then DefaultMacro else s.macro)
    ensures r.onOffUI == (if s.onOffUI == "" then DefaultOnOffUI else s.onOffUI)
    ensures r.visMacro == (if s.visMacro == "" then DefaultVisMacro else s.visMacro)
    ensures r.numberOfEvent == s.numberOfEvent && r.ui == s.ui
    ensures r.macro != "" && r.onOffUI != "" && r.visMacro != ""
  {
    Settings(if s.macro == "" then DefaultMacro else s.macro,
             if s.visMacro == "" then DefaultVisMacro else s.visMacro,
             if s.onOffUI == "" then DefaultOnOffUI else s.onOffUI,
             s.numberOfEvent, s.ui)
  }

  /** The outcome of main's argument handling for the arguments after the
      program name. */
  function ParseCommandLine(args: seq<string>, toInt: string -> int): (r: Parse)
    ensures |args| + 1 > MaxArgc ==> r == Usage
    ensures |args| == 0 ==> r == Parsed(Settings(DefaultMacro, DefaultVisMacro, "on", 0, true))
    ensures r.Parsed? ==> r.settings.macro != "" && r.settings.onOffUI != "" && r.settings.visMacro != ""
  {
    if |args| + 1 > MaxArgc then Usage
    else if |args| == 0 then Parsed(WithDefaults(Initial().(onOffUI := "on", ui := true)))
    else
      match Scan(args, 0, Initial(), toInt)
      case Parsed(s) => Parsed(WithDefaults(s))
      case other => other
  }

  /** main's argument loop: pairs are read from the first argument on,
      stepping by two. */
  method ParseArguments(args: seq<string>, toInt: string -> int) returns (r: Parse)
    ensures r == ParseCommandLine(args, toInt)
  {
    if |args| + 1 > MaxArgc {
      return Usage;
    }
    var macro, visMacro, onOffUI, numberOfEvent, ui := "", "", "", 0, false;
    if |args| == 0 {
      ui := true;
      onOffUI := "on";
    } else {
      var p := 0;
      while p < |args|
        invariant 0 <= p
        invariant Scan(args, 0, Initial(), toInt) ==
                  Scan(args, p, Settings(macro, visMacro, onOffUI, numberOfEvent, ui), toInt)
        decreases |args| - p
      {
        var flag := args[p];
        if !IsFlag(flag) {
          return Usage;
        }
        if p + 1 == |args| {
          return MissingValue;
        }
        var value := args[p + 1];
        if flag == "-m" {
          macro := value;
        } else if flag == "-ui" {
          onOffUI := value;
          if onOffUI == "on" {
            ui := true;
          }
        } else if flag == "-vm" {
          visMacro := value;
          onOffUI := "on";
          ui := true;
        } else {
          numberOfEvent := toInt(value);
        }
        p := p + 2;
      }
    }
    if macro == "" { macro := DefaultMacro; }
    if onOffUI == "" { onOffUI := DefaultOnOffUI; }
    if visMacro == "" { visMacro := DefaultVisMacro; }
    r := Parsed(Settings(macro, visMacro, onOffUI, numberOfEvent, ui));
  }

  /** A scan that succeeds has consumed whole pairs. */
  lemma {:induction false} ScanParsedEven(args: seq<string>, p: nat, s: Settings, toInt: string -> int)
    requires p <= |args| && Scan(args, p, s, toInt).Parsed?
    ensures (|args| - p) % 2 == 0
    decreases |args| - p
  {
    if p < |args| {
      ScanParsedEven(args, p + 2, Apply(args[p], args[p + 1], s, toInt), toInt);
    }
  }

  /** An odd number of arguments is never accepted; in particular the
      one-argument form `dose macro.mac` shown in the usage text is
      refused, with the usage text for a non-flag and with the missing
      value for a lone flag. */
  lemma OddArgumentsRejected(args: seq<string>, toInt: string -> int)
    requires |args| % 2 == 1
    ensures !ParseCommandLine(args, toInt).Parsed?
  {
    if |args| + 1 <= MaxArgc && Scan(args, 0, Initial(), toInt).Parsed? {
      ScanParsedEven(args, 0, Initial(), toInt);
    }
  }

  lemma SingleMacroRejected(name: string, toInt: string -> int)
    ensures ParseCommandLine([name], toInt) == (if IsFlag(name) then MissingValue else Usage)
  {
  }

  /** A pair that creates the interactive session. */
  predicate OpensUI(flag: string, value: string)
  {
    flag == "-vm" || (flag == "-ui" && value == "on")
  }

  /** Some pair from p on opens the session. */
  predicate OpensFrom(args: seq<string>, p: nat)
  {
    exists q :: p <= q < |args| - 1 && (q - p) % 2 == 0 && OpensUI(args[q], args[q + 1])
  }

  lemma EvenShift(d: int)
    ensures d % 2 == 0 <==> (d - 2) % 2 == 0
  {
  }

  lemma OpensFromStep(args: seq<string>, p: nat)
    requires p + 1 < |args|
    ensures OpensFrom(args, p) <==> OpensUI(args[p], args[p + 1]) || OpensFrom(args, p + 2)
  {
    if OpensFrom(args, p + 2) {
      var q :| p + 2 <= q < |args| - 1 && (q - (p + 2)) % 2 == 0 && OpensUI(args[q], args[q + 1]);
      EvenShift(q - p);
    }
    if OpensFrom(args, p) {
      var q :| p <= q < |args| - 1 && (q - p) % 2 == 0 && OpensUI(args[q], args[q + 1]);
      if q != p {
        EvenShift(q - p);
        assert p + 2 <= q;
      }
    }
  }

  /** The session exists after the scan exactly when it did before or
      some pair from p on opens it. */
  lemma {:induction false} ScanUI(args: seq<string>, p: nat, s: Settings, toInt: string -> int)
    requires p <= |args| && Scan(args, p, s, toInt).Parsed?
    ensures Scan(args, p, s, toInt).settings.ui <==> s.ui || OpensFrom(args, p)
    decreases |args| - p
  {
    if p < |args| {
      ScanUI(args, p + 2, Apply(args[p], args[p + 1], s, toInt), toInt);
      OpensFromStep(args, p);
    }
  }

  /** With arguments, main runs interactively exactly when some option
      pair asks for it; `-ui off` after `-vm` leaves the session in place
      although onOffUI then reads "off". */
  lemma InteractiveIff(args: seq<string>, toInt: string -> int)
    requires |args| > 0 && ParseCommandLine(args, toInt).Parsed?
    ensures ParseCommandLine(args, toInt).settings.ui <==>
      exists q :: 0 <= q < |args| - 1 && q % 2 == 0 && OpensUI(args[q], args[q + 1])
  {
    ScanUI(args, 0, Initial(), toInt);
  }

  /** q is the position of an option pair read by the scan from p on. */
  predicate PairAt(args: seq<string>, p: nat, q: int)
  {
    p <= q < |args| - 1 && (q - p) % 2 == 0
  }

  /** No pair from p on has the flag. */
  ghost predicate NoPair(args: seq<string>, p: nat, flag: string)
  {
    forall q :: PairAt(args, p, q) ==> args[q] != flag
  }

  /** q is the last pair from p on that has the flag. */
  ghost predicate LastPair(args: seq<string>, p: nat, flag: string, q: int)
  {
    PairAt(args, p, q) && args[q] == flag && forall r :: PairAt(args, p, r) && r > q ==> args[r] != flag
  }

  /** The pairs from p + 2 on are the pairs from p on other than p. */
  lemma PairAtStep(args: seq<string>, p: nat, q: int)
    ensures PairAt(args, p + 2, q) <==> PairAt(args, p, q) && q != p
  {
    EvenShift(q - p);
  }

  /** Every `-m` overwrites the macro, so the scan leaves the value of the
      last `-m` pair, or the start value when there is none. */
  lemma {:induction false} ScanMacro(args: seq<string>, p: nat, s: Settings, toInt: string -> int)
    requires p <= |args| && Scan(args, p, s, toInt).Parsed?
    ensures NoPair(args, p, "-m") ==> Scan(args, p, s, toInt).settings.macro == s.macro
    ensures forall q :: LastPair(args, p, "-m", q) ==> Scan(args, p, s, toInt).settings.macro == args[q + 1]
    decreases |args| - p
  {
    if p < |args| {
      var s' := Apply(args[p], args[p + 1], s, toInt);
      ScanMacro(args, p + 2, s', toInt);
      forall q {
        PairAtStep(args, p, q);
      }
      forall q | LastPair(args, p, "-m", q)
        ensures LastPair(args, p + 2, "-m", q) || (q == p && NoPair(args, p + 2, "-m"))
      {
      }
    }
  }

  /** Every `-n` overwrites the event count, so the scan leaves the
      conversion of the last `-n` value, or the start count when there is
      none. */
  lemma {:induction false} ScanEvents(args: seq<string>, p: nat, s: Settings, toInt: string -> int)
    requires p <= |args| && Scan(args, p, s, toInt).Parsed?
    ensures NoPair(args, p, "-n") ==> Scan(args, p, s, toInt).settings.numberOfEvent == s.numberOfEvent
    ensures forall q :: LastPair(args, p, "-n", q) ==>
      Scan(args, p, s, toInt).settings.numberOfEvent == toInt(args[q + 1])
    decreases |args| - p
  {
    if p < |args| {
      var s' := Apply(args[p], args[p + 1], s, toInt);
      ScanEvents(args, p + 2, s', toInt);
      forall q {
        PairAtStep(args, p, q);
      }
      forall q | LastPair(args, p, "-n", q)
        ensures LastPair(args, p + 2, "-n", q) || (q == p && NoPair(args, p + 2, "-n"))
      {
      }
    }
  }

  /** The macro run is the value of the last `-m` pair when that value is
      non-empty, and the default otherwise. */
  lemma MacroGivenOrDefault(args: seq<string>, toInt: string -> int)
    requires |args| > 0 && ParseCommandLine(args, toInt).Parsed?
    ensures NoPair(args, 0, "-m") ==> ParseCommandLine(args, toInt).settings.macro == DefaultMacro
    ensures forall q :: LastPair(args, 0, "-m", q) ==>
      ParseCommandLine(args, toInt).settings.macro == (if args[q + 1] == "" then DefaultMacro else args[q + 1])
  {
    ScanMacro(args, 0, Initial(), toInt);
  }

  /** The event count is the conversion of the last `-n` value, or 0; a
      batch run passes it to BeamOn when it is not negative. */
  lemma EventsGivenOrZero(args: seq<string>, toInt: string -> int)
    requires |args| > 0 && ParseCommandLine(args, toInt).Parsed?
    ensures NoPair(args, 0, "-n") ==> ParseCommandLine(args, toInt).settings.numberOfEvent == 0
    ensures forall q :: LastPair(args, 0, "-n", q) ==>
      ParseCommandLine(args, toInt).settings.numberOfEvent == toInt(args[q + 1])
    ensures var s := ParseCommandLine(args, toInt).settings;
      !s.ui ==> RunPlan(s).beamOn ==
                (if NoPair(args, 0, "-n") then Some(0)
                 else if s.numberOfEvent >= 0 then Some(s.numberOfEvent) else None)
  {
    ScanEvents(args, 0, Initial(), toInt);
  }

  /** What the run does with its settings: the commands applied, the
      number of events given to BeamOn (if it is called), and whether an
      interactive session starts. */
  datatype Run = Run(commands: seq<string>, beamOn: Option<int>, sessionStarted: bool)

  function RunPlan(s: Settings): (r: Run)
    ensures |r.commands| >= 1 && r.commands[0] == ExecuteCommand + s.macro
    ensures r.sessionStarted == s.ui
    ensures r.beamOn.Some? <==> !s.ui && s.numberOfEvent >= 0
    ensures r.beamOn.Some? ==> r.beamOn.value == s.numberOfEvent
    ensures s.ui ==> r.commands == [ExecuteCommand + s.macro, ExecuteCommand + s.visMacro]
    ensures !s.ui ==> r.commands == [ExecuteCommand + s.macro]
  {
    if !s.ui then
      Run([ExecuteCommand + s.macro], if s.numberOfEvent >= 0 then Some(s.numberOfEvent) else None, false)
    else
      Run([ExecuteCommand + s.macro, ExecuteCommand + s.visMacro], None, true)
  }

  /** The three tables of the run: energy deposit, LET and fluence. */
  datatype Tables = Tables(eDep: Table, let: Table, fluence: Table)

  /** End of job: the tables are produced only when the dose matrix
      exists; nEvents is the run's event count, which scales the energy
      deposit. */
  method StoreTables(matrix: DetectorMatrix?, nEvents: int) returns (tables: Option<Tables>)
    requires matrix != null ==> matrix.Valid() && nEvents != 0
    ensures tables.Some? <==> matrix != null
    ensures matrix != null ==> tables.value == Tables(
      Table(Header(matrix.ionStore, matrix.secondary),
            Lines(Quantities(matrix.ionStore, EDep), matrix.nX, matrix.nY, matrix.nZ,
                  1.0 / (nEvents as real), MeV, matrix.secondary)),
      Table(Header(matrix.ionStore, matrix.secondary),
            Lines(LetValues(matrix.ionStore, matrix.GetNvoxel()), matrix.nX, matrix.nY, matrix.nZ,
                  1.0, keVPerUm, matrix.secondary)),
      Table(Header(matrix.ionStore, matrix.secondary),
            Lines(Quantities(matrix.ionStore, Fluence), matrix.nX, matrix.nY, matrix.nZ,
                  1.0, 1.0 / cm2, matrix.secondary)))
  {
    if matrix == null {
      return None;
    }
    var eDep := matrix.StoreEDepAscii(nEvents);
    var let := matrix.StoreLetAscii();
    var fluence := matrix.StoreFluenceAscii();
    tables := Some(Tables(eDep, let, fluence));
  }
}
