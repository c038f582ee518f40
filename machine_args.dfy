/**
  The argument lines that the `Machine` command facade hands to the
  `docker-machine` executable, one builder per operation, and a reading of
  such a line back into the operation it requests.
 */
module MachineArgs {

  import opened Wrappers
  import opened Strings

  /** The operations that take a single machine name and nothing else. */
  datatype Verb = Inspect | Start | Stop | Env | Url | Status

  /** What an argument line asks `docker-machine` to do. */
  datatype Invocation =
    | List
    | Targeted(verb: Verb, machine: string)
    | Remove(machine: string, force: bool)

  /** The fixed argument line of `ls`: one `name;state;url` row per machine. */
  const LS_LINE: string := "ls --format=\"{{.Name}};{{.State}};{{.URL}}\""

  /**
    A string-level inverse of the builders below: recognises the `ls` line,
    `rm -y` with or without `-f`, or a verb, a space and the rest of the line
    taken as the machine name. It does not split the line into arguments the
    way the executable receives them, nor process quotes.
   */
  function Decode(line: string): Option<Invocation> {
    if line == LS_LINE then Some(List)
    else if "rm -y -f " <= line then Some(Remove(line[9..], true))
    else if "rm -y " <= line then Some(Remove(line[6..], false))
    else if "inspect " <= line then Some(Targeted(Inspect, line[8..]))
    else if "start " <= line then Some(Targeted(Start, line[6..]))
    else if "stop " <= line then Some(Targeted(Stop, line[5..]))
    else if "env " <= line then Some(Targeted(Env, line[4..]))
    else if "url " <= line then Some(Targeted(Url, line[4..]))
    else if "status " <= line then Some(Targeted(Status, line[7..]))
    else None
  }

  // ---------------------------------------------------------------------
  // Single-target operations and `ls`
  // ---------------------------------------------------------------------

  function LsArgs(): (r: string)
    ensures Decode(r) == Some(List)
  {
    LS_LINE
  }

  function InspectArgs(machine: string): (r: string)
    ensures Decode(r) == Some(Targeted(Inspect, machine))
  {
    var r := "inspect " + machine;
    assert r[0] == 'i';
    r
  }

  function StartArgs(machine: string): (r: string)
    ensures Decode(r) == Some(Targeted(Start, machine))
  {
    var r := "start " + machine;
    assert r[0] == 's' && r[2] == 'a';
    r
  }

  function StopArgs(machine: string): (r: string)
    ensures Decode(r) == Some(Targeted(Stop, machine))
  {
    var r := "stop " + machine;
    assert r[0] == 's' && r[2] == 'o';
    r
  }

  function EnvArgs(machine: string): (r: string)
    ensures Decode(r) == Some(Targeted(Env, machine))
  {
    var r := "env " + machine;
    assert r[0] == 'e';
    r
  }

  function UrlArgs(machine: string): (r: string)
    ensures Decode(r) == Some(Targeted(Url, machine))
  {
    var r := "url " + machine;
    assert r[0] == 'u';
    r
  }

  function StatusArgs(machine: string): (r: string)
    ensures Decode(r) == Some(Targeted(Status, machine))
  {
    var r := "status " + machine;
    assert r[0] == 's' && r[3] == 't' && r[4] == 'u';
    r
  }

  // ---------------------------------------------------------------------
  // Create
  // ---------------------------------------------------------------------

  /**
    `options.Aggregate(string.Empty, (current, option) => current + $"{option} ")`:
    a left fold that appends each option followed by one space.
   */
  function FoldOptions(options: seq<string>): (r: string)
    ensures |r| >= |options|
    decreases |options|
  {
    if |options| == 0 then ""
    else FoldOptions(options[..|options| - 1]) + options[|options| - 1] + " "
  }

  /** Reference reading of the fold: each option and a space, first to last. */
  function JoinOptions(options: seq<string>): string
    decreases |options|
  {
    if |options| == 0 then "" else options[0] + " " + JoinOptions(options[1..])
  }

  lemma {:induction false} JoinOptionsSnoc(options: seq<string>, last: string)
    ensures JoinOptions(options + [last]) == JoinOptions(options) + last + " "
    decreases |options|
  {
    if |options| > 0 {
      assert (options + [last])[1..] == options[1..] + [last];
      JoinOptionsSnoc(options[1..], last);
    }
  }

  /** The `Aggregate` left fold of `Create` and the first-to-last join agree on every list. */
  lemma {:induction false} FoldIsJoin(options: seq<string>)
    ensures FoldOptions(options) == JoinOptions(options)
    decreases |options|
  {
    if |options| > 0 {
      var init := options[..|options| - 1];
      FoldIsJoin(init);
      JoinOptionsSnoc(init, options[|options| - 1]);
      assert options == init + [options[|options| - 1]];
    }
  }

  lemma {:induction false} JoinOptionsAppend(a: seq<string>, b: seq<string>)
    ensures JoinOptions(a + b) == JoinOptions(a) + JoinOptions(b)
    decreases |a|
  {
    if |a| > 0 {
      assert (a + b)[1..] == a[1..] + b;
      JoinOptionsAppend(a[1..], b);
    } else {
      assert a + b == b;
    }
  }

  /**
    The folded string is empty exactly when there are no options: even a list
    of empty strings folds to spaces.
   */
  lemma FoldOptionsEmptyIff(options: seq<string>)
    ensures FoldOptions(options) == "" <==> |options| == 0
  {
  }

  /**
    Options keep the order given: option `i` sits, followed by one space,
    between the fold of the options before it and the fold of those after it.
   */
  lemma {:induction false} JoinOptionsAt(options: seq<string>, i: nat)
    requires i < |options|
    ensures JoinOptions(options)
         == JoinOptions(options[..i]) + options[i] + " " + JoinOptions(options[i + 1..])
  {
    var rest := options[i..];
    assert options == options[..i] + rest;
    JoinOptionsAppend(options[..i], rest);
    assert rest[0] == options[i] && rest[1..] == options[i + 1..];
  }

  lemma OptionsInOrder(options: seq<string>, i: nat)
    requires i < |options|
    ensures FoldOptions(options)
         == FoldOptions(options[..i]) + options[i] + " " + FoldOptions(options[i + 1..])
  {
    FoldIsJoin(options);
    FoldIsJoin(options[..i]);
    FoldIsJoin(options[i + 1..]);
    JoinOptionsAt(options, i);
  }

  /** `Create(machine, driver, params options)`: the raw-options overload. */
  function CreateArgs(machine: string, driver: string, options: seq<string>): (r: string)
    ensures |options| == 0 ==> r == "create -d " + driver + " " + machine
    ensures |options| > 0 ==> r == "create -d " + driver + " " + JoinOptions(options) + " " + machine
  {
    var opts := FoldOptions(options);
    FoldIsJoin(options);
    if opts == "" then "create -d " + driver + " " + machine
    else "create -d " + driver + " " + opts + " " + machine
  }

  /** With at least one option, two spaces stand before the machine name. */
  lemma CreateTwoSpaces(machine: string, driver: string, options: seq<string>)
    requires |options| > 0
    ensures var r := CreateArgs(machine, driver, options);
      |r| >= |machine| + 2 && r[|r| - |machine| - 2..] == "  " + machine
  {
  }

  /** A single empty option still takes the options branch: three spaces in all. */
  lemma CreateEmptyOption(machine: string, driver: string)
    ensures CreateArgs(machine, driver, [""]) == "create -d " + driver + "   " + machine
  {
  }

  /** The raw overload with one option, written out. */
  lemma CreateOne(machine: string, driver: string, a: string)
    ensures CreateArgs(machine, driver, [a]) == "create -d " + driver + " " + a + " " + " " + machine
  {
    assert [a][1..] == [];
    assert JoinOptions([a]) == a + " ";
  }

  /** One raw option: the line ends in two spaces and the machine name. */
  lemma CreateOneOptionExample()
    ensures CreateArgs("m1", "virtualbox", ["--virtualbox-memory \"2048\""])
         == "create -d virtualbox " + "--virtualbox-memory \"2048\"" + "  m1"
  {
    CreateOne("m1", "virtualbox", "--virtualbox-memory \"2048\"");
    assert "create -d " + "virtualbox" + " " == "create -d virtualbox ";
    assert " " + " " + "m1" == "  m1";
  }

  /** The convenience overload's three `virtualbox` resource flags, in this order. */
  function VirtualboxOptions(memMb: Int32, volumeMb: Int32, cpuCnt: Int32): seq<string> {
    [ "--virtualbox-memory \"" + IntToDecimal(memMb as int) + "\"",
      "--virtualbox-disk-size \"" + IntToDecimal(volumeMb as int) + "\"",
      "--virtualbox-cpu-count \"" + IntToDecimal(cpuCnt as int) + "\"" ]
  }

  lemma JoinThree(a: string, b: string, c: string)
    ensures JoinOptions([a, b, c]) == a + " " + b + " " + c + " "
  {
    assert [a, b, c][1..] == [b, c];
    assert [b, c][1..] == [c];
    assert [c][1..] == [];
    assert JoinOptions([c]) == c + " ";
    assert JoinOptions([b, c]) == b + " " + (c + " ");
    assert JoinOptions([a, b, c]) == a + " " + (b + " " + (c + " "));
  }

  lemma CreateThree(machine: string, driver: string, a: string, b: string, c: string)
    ensures CreateArgs(machine, driver, [a, b, c])
         == "create -d " + driver + " " + a + " " + b + " " + c + " " + " " + machine
  {
    JoinThree(a, b, c);
  }

  /**
    `Create(machine, memMb, volumeMb, cpuCnt, params options)`: always the
    `virtualbox` driver with the three resource flags; `options` is not used.
   */
  function CreateSizedArgs(machine: string, memMb: Int32, volumeMb: Int32, cpuCnt: Int32,
                           options: seq<string>): (r: string)
    ensures r == "create -d virtualbox "
               + ("--virtualbox-memory \"" + IntToDecimal(memMb as int) + "\"") + " "
               + ("--virtualbox-disk-size \"" + IntToDecimal(volumeMb as int) + "\"") + " "
               + ("--virtualbox-cpu-count \"" + IntToDecimal(cpuCnt as int) + "\"") + " "
               + " " + machine
  {
    var flags := VirtualboxOptions(memMb, volumeMb, cpuCnt);
    CreateThree(machine, "virtualbox", flags[0], flags[1], flags[2]);
    assert flags == [flags[0], flags[1], flags[2]];
    assert "create -d " + "virtualbox" + " " == "create -d virtualbox ";
    CreateArgs(machine, "virtualbox", flags)
  }

  /**
    Memory 2048, disk 20000 and two CPUs give the same line as the raw overload
    called with the three flags written out, whatever options are passed.
   */
  lemma CreateSizedExample(options: seq<string>)
    ensures CreateSizedArgs("m1", 2048, 20000, 2, options)
         == CreateArgs("m1", "virtualbox", [ "--virtualbox-memory \"2048\"",
                                             "--virtualbox-disk-size \"20000\"",
                                             "--virtualbox-cpu-count \"2\"" ])
  {
    assert IntToDecimal(2048) == "2048";
    assert IntToDecimal(20000) == "20000";
    assert IntToDecimal(2) == "2";
    assert "--virtualbox-memory \"" + "2048" + "\"" == "--virtualbox-memory \"2048\"";
    assert "--virtualbox-disk-size \"" + "20000" + "\"" == "--virtualbox-disk-size \"20000\"";
    assert "--virtualbox-cpu-count \"" + "2" + "\"" == "--virtualbox-cpu-count \"2\"";
    assert VirtualboxOptions(2048, 20000, 2)
        == [ "--virtualbox-memory \"2048\"",
             "--virtualbox-disk-size \"20000\"",
             "--virtualbox-cpu-count \"2\"" ];
  }

  // ---------------------------------------------------------------------
  // Delete
  // ---------------------------------------------------------------------

  /** `Delete(machine, force)`: `-f` between `rm -y` and the name when forced. */
  function DeleteArgs(machine: string, force: bool): (r: string)
    ensures force ==> r == "rm -y -f " + machine
    ensures !force ==> r == "rm -y " + machine
    ensures force || !("-f " <= machine) ==> Decode(r) == Some(Remove(machine, force))
  {
    var r := "rm -y " + (if force then "-f " else "") + machine;
    assert r[0] == 'r';
    assert !force && "rm -y -f " <= r ==> r[6..9] == machine[..3] == "-f ";
    r
  }

  /** No escaping: a machine named `-f …` deleted without force reads as a forced delete. */
  lemma DeleteFlagAmbiguity(machine: string)
    ensures DeleteArgs("-f " + machine, false) == DeleteArgs(machine, true)
    ensures Decode(DeleteArgs("-f " + machine, false)) == Some(Remove(machine, true))
  {
  }

}
