/**
 * The offline audio generator's own logic: reading `.env` lines into the environment, the
 * default voice, the command-line scan for `--slide N`, the order and selection of slides,
 * and the name of the file requested for each slide. The speech service, the file system
 * and loading of the narration scripts stay outside.
 */
module AudioGen {
  import opened Wrappers
  import opened JsText

  const ApiKeyVar: string := "ELEVENLABS_API_KEY"
  const VoiceIdVar: string := "ELEVENLABS_VOICE_ID"
  const DefaultVoiceId: string := "HlMBBeKyCO8iSONO6L5i"

  // ---------------------------------------------------------------------------
  // .env
  // ---------------------------------------------------------------------------

  predicate StartsWithHash(s: string) {
    |s| > 0 && s[0] == '#'
  }

  /**
   * One `.env` line: `const [key, ...valueParts] = line.split('=')`, kept when `key` is
   * non-empty before trimming, there was an `=`, and the trimmed key does not start with `#`.
   */
  function ParseEnvLine(line: string): Option<(string, string)> {
    var parts := Split(line, '=');
    var key := parts[0];
    var valueParts := parts[1..];
    if key != "" && |valueParts| > 0 && !StartsWithHash(Trim(key)) then
      Some((Trim(key), Trim(Join(valueParts, '='))))
    else
      None
  }

  /**
   * A line is an entry exactly when it has an `=` that is not its first character and the
   * text before it, trimmed, does not start with `#`; the key is that text trimmed and the
   * value everything after the first `=`, trimmed.
   */
  lemma EnvLineMeaning(line: string)
    ensures ParseEnvLine(line) ==
      if '=' !in line then None
      else
        var i := IndexOf(line, '=');
        if i > 0 && !StartsWithHash(Trim(line[..i])) then Some((Trim(line[..i]), Trim(line[i + 1..])))
        else None
  {
    SplitAtFirst(line, '=');
  }

  /** `A= b=c ` sets `A` to `b=c`. */
  lemma EnvLineExample()
    ensures ParseEnvLine("A= b=c ") == Some(("A", "b=c"))
  {
    var line := "A= b=c ";
    assert '=' in line && IndexOf(line, '=') == 1;
    assert Trim(line[..1]) == "A" by {
      assert line[..1] == [] + "A" + [];
      TrimPadded([], "A", []);
    }
    assert !StartsWithHash("A");
    assert Trim(line[2..]) == "b=c" by {
      assert line[2..] == " " + "b=c" + " ";
      TrimPadded(" ", "b=c", " ");
    }
    EnvLineMeaning(line);
  }

  /** A line with no `=` and a comment line set nothing. */
  lemma EnvLineIgnored(line: string)
    requires '=' !in line || StartsWithHash(Trim(line[..IndexOf(line, '=')]))
    ensures ParseEnvLine(line) == None
  {
    EnvLineMeaning(line);
  }

  predicate SetsKey(line: string, k: string) {
    ParseEnvLine(line).Some? && ParseEnvLine(line).value.0 == k
  }

  /** The environment after the parsed `.env` lines `entries`, applied in order. */
  function ApplyEntries(env: map<string, string>, entries: seq<Option<(string, string)>>): map<string, string> {
    if entries == [] then env
    else
      var before := ApplyEntries(env, entries[..|entries| - 1]);
      match entries[|entries| - 1]
      case Some(entry) => before[entry.0 := entry.1]
      case None => before
  }

  /** Each line parsed on its own. */
  function ParseEnvLines(lines: seq<string>): seq<Option<(string, string)>> {
    seq(|lines|, i requires 0 <= i < |lines| => ParseEnvLine(lines[i]))
  }

  /** The environment after the `.env` lines `lines`, applied in order. */
  function ApplyEnvLines(env: map<string, string>, lines: seq<string>): map<string, string> {
    ApplyEntries(env, ParseEnvLines(lines))
  }

  /** The last entry for a key decides its value. */
  lemma {:induction false} LastEntryWins(env: map<string, string>, entries: seq<Option<(string, string)>>,
                                         k: string, v: string, i: nat)
    requires i < |entries| && entries[i] == Some((k, v))
    requires forall j :: i < j < |entries| ==> entries[j].None? || entries[j].value.0 != k
    ensures k in ApplyEntries(env, entries) && ApplyEntries(env, entries)[k] == v
  {
    var last := |entries| - 1;
    if i < last {
      var prefix := entries[..last];
      assert forall j :: i < j < |prefix| ==> prefix[j] == entries[j];
      LastEntryWins(env, prefix, k, v, i);
    }
  }

  /** A key no entry sets keeps its earlier value, or stays absent. */
  lemma {:induction false} NoEntryKeeps(env: map<string, string>, entries: seq<Option<(string, string)>>, k: string)
    requires forall j :: 0 <= j < |entries| ==> entries[j].None? || entries[j].value.0 != k
    ensures k in ApplyEntries(env, entries) <==> k in env
    ensures k in env ==> ApplyEntries(env, entries)[k] == env[k]
  {
    if entries != [] {
      var prefix := entries[..|entries| - 1];
      assert forall j :: 0 <= j < |prefix| ==> prefix[j] == entries[j];
      NoEntryKeeps(env, prefix, k);
    }
  }

  /** A key set by some line ends up with the value of the last line that sets it. */
  lemma EnvLastLineWins(env: map<string, string>, lines: seq<string>, k: string, i: nat)
    requires i < |lines| && SetsKey(lines[i], k)
    requires forall j :: i < j < |lines| ==> !SetsKey(lines[j], k)
    ensures k in ApplyEnvLines(env, lines)
    ensures ApplyEnvLines(env, lines)[k] == ParseEnvLine(lines[i]).value.1
  {
    var entries := ParseEnvLines(lines);
    LastEntryWins(env, entries, k, ParseEnvLine(lines[i]).value.1, i);
  }

  /** A key no line sets keeps its earlier value, or stays absent. */
  lemma EnvUntouchedKey(env: map<string, string>, lines: seq<string>, k: string)
    requires forall j :: 0 <= j < |lines| ==> !SetsKey(lines[j], k)
    ensures k in ApplyEnvLines(env, lines) <==> k in env
    ensures k in env ==> ApplyEnvLines(env, lines)[k] == env[k]
  {
    NoEntryKeeps(env, ParseEnvLines(lines), k);
  }

  /** Applying one more line sets what that line sets, on top of the lines before it. */
  lemma ApplyOneMoreLine(env: map<string, string>, lines: seq<string>, i: nat)
    requires i < |lines|
    ensures ApplyEnvLines(env, lines[..i + 1]) ==
      if ParseEnvLine(lines[i]).Some?
      then ApplyEnvLines(env, lines[..i])[ParseEnvLine(lines[i]).value.0 := ParseEnvLine(lines[i]).value.1]
      else ApplyEnvLines(env, lines[..i])
  {
    assert ParseEnvLines(lines[..i + 1])[..i] == ParseEnvLines(lines[..i]);
  }

  /** Loading a `.env` file: each line of `content` written into the environment in turn. */
  method LoadEnvFile(content: string, env: map<string, string>) returns (result: map<string, string>)
    ensures result == ApplyEnvLines(env, Split(content, '\n'))
  {
    var lines := Split(content, '\n');
    result := env;
    for i := 0 to |lines|
      invariant result == ApplyEnvLines(env, lines[..i])
    {
      ApplyOneMoreLine(env, lines, i);
      var entry := ParseEnvLine(lines[i]);
      if entry.Some? {
        result := result[entry.value.0 := entry.value.1];
      }
    }
    assert lines[..|lines|] == lines;
  }

  /** A JavaScript truthy environment variable: present and not empty. */
  predicate IsSet(env: map<string, string>, name: string) {
    name in env && env[name] != ""
  }

  /** `CONFIG.voiceId`: the configured voice, or the default when unset or empty. */
  function VoiceId(env: map<string, string>): (v: string)
    ensures v != ""
    ensures IsSet(env, VoiceIdVar) ==> v == env[VoiceIdVar]
    ensures !IsSet(env, VoiceIdVar) ==> v == DefaultVoiceId
  {
    if IsSet(env, VoiceIdVar) then env[VoiceIdVar] else DefaultVoiceId
  }

  // ---------------------------------------------------------------------------
  // Command line
  // ---------------------------------------------------------------------------

  /** The outcome of scanning the arguments: print usage and exit, or run. */
  datatype ArgScan = Help | Run(specificSlide: Option<Num>)

  predicate IsHelpFlag(a: string) {
    a == "--help" || a == "-h"
  }

  /** Some argument asks for the usage text. */
  predicate AsksForHelp(args: seq<string>) {
    exists i :: 0 <= i < |args| && IsHelpFlag(args[i])
  }

  /** Position `i` holds `--slide` followed by a non-empty argument. */
  predicate SlideFlagAt(args: seq<string>, i: int) {
    0 <= i < |args| - 1 && args[i] == "--slide" && args[i + 1] != ""
  }

  /** The last position before `n` that holds `--slide` and a non-empty argument, or -1. */
  function LastSlideFlag(args: seq<string>, n: nat): (at: int)
    requires n <= |args|
    ensures -1 <= at < n
    ensures at != -1 ==> SlideFlagAt(args, at)
    ensures forall j :: at < j < n ==> !SlideFlagAt(args, j)
  {
    if n == 0 then -1
    else if SlideFlagAt(args, n - 1) then n - 1
    else LastSlideFlag(args, n - 1)
  }

  /**
   * The slide the arguments before position `n` ask for: the number after the last
   * `--slide` that has a non-empty argument, or none.
   */
  function SpecificSlide(args: seq<string>, n: nat): Option<Num>
    requires n <= |args|
  {
    var at := LastSlideFlag(args, n);
    if at == -1 then None else Some(ParseInt(args[at + 1]))
  }

  /** A rendered number is never the `--slide` flag itself. */
  lemma NumberIsNoFlag(n: int)
    ensures IntToString(n) != "--slide"
  {
    var t := IntToString(n);
    assert IsDecimalDigit(t[|t| - 1]);
    assert !IsDecimalDigit("--slide"[6]);
  }

  /** Of two `--slide` arguments the last wins. */
  lemma LastSlideArgumentWins(n: int, m: int)
    ensures var a := ["--slide", IntToString(n), "--slide", IntToString(m)];
      SpecificSlide(a, |a|) == Some(Int(m))
  {
    var a := ["--slide", IntToString(n), "--slide", IntToString(m)];
    NumberIsNoFlag(m);
    assert !SlideFlagAt(a, 3) && SlideFlagAt(a, 2);
    assert LastSlideFlag(a, 4) == 2;
    ParseIntRoundTrip(m);
  }

  /** A trailing `--slide` without an argument leaves the earlier choice in place. */
  lemma TrailingSlideFlagIgnored(n: int)
    ensures var a := ["--slide", IntToString(n), "--slide"];
      SpecificSlide(a, |a|) == Some(Int(n))
  {
    var a := ["--slide", IntToString(n), "--slide"];
    NumberIsNoFlag(n);
    assert !SlideFlagAt(a, 2) && !SlideFlagAt(a, 1) && SlideFlagAt(a, 0);
    assert LastSlideFlag(a, 3) == LastSlideFlag(a, 2) == LastSlideFlag(a, 1) == 0;
    ParseIntRoundTrip(n);
  }

  /**
   * The argument loop of `main`. Any help flag ends the scan with usage; otherwise the
   * result is the slide the arguments ask for.
   */
  method ScanArgs(args: seq<string>) returns (scan: ArgScan)
    ensures scan == Help <==> AsksForHelp(args)
    ensures scan.Run? ==> scan.specificSlide == SpecificSlide(args, |args|)
  {
    var specificSlide: Option<Num> := None;
    ghost var at := -1;
    for i := 0 to |args|
      invariant forall j :: 0 <= j < i ==> !IsHelpFlag(args[j])
      invariant at == LastSlideFlag(args, i)
      invariant specificSlide == if at == -1 then None else Some(ParseInt(args[at + 1]))
    {
      if SlideFlagAt(args, i) {
        specificSlide := Some(ParseInt(args[i + 1]));
        at := i;
      } else if IsHelpFlag(args[i]) {
        return Help;
      }
    }
    return Run(specificSlide);
  }

  // ---------------------------------------------------------------------------
  // Slide selection and naming
  // ---------------------------------------------------------------------------

  predicate Ascending(s: seq<int>) {
    forall i, j :: 0 <= i < j < |s| ==> s[i] <= s[j]
  }

  /** A number no larger than any element of an ascending list can go in front of it. */
  lemma AscendingCons(x: int, s: seq<int>)
    requires Ascending(s)
    requires forall k :: 0 <= k < |s| ==> x <= s[k]
    ensures Ascending([x] + s)
  {
    forall i, j | 0 <= i < j < |s| + 1 ensures ([x] + s)[i] <= ([x] + s)[j] {
      if i > 0 {
        assert ([x] + s)[i] == s[i - 1] && ([x] + s)[j] == s[j - 1];
      }
    }
  }

  function Insert(x: int, s: seq<int>): (r: seq<int>)
    requires Ascending(s)
    ensures Ascending(r)
    ensures multiset(r) == multiset(s) + multiset{x}
  {
    if s == [] || x <= s[0] then
      AscendingCons(x, s);
      [x] + s
    else
      var rest := Insert(x, s[1..]);
      InsertBehindHead(x, s, rest);
      [s[0]] + rest
  }

  /** Inserting behind the head of an ascending list: the head stays in front. */
  lemma InsertBehindHead(x: int, s: seq<int>, rest: seq<int>)
    requires Ascending(s) && s != [] && s[0] < x
    requires Ascending(rest) && multiset(rest) == multiset(s[1..]) + multiset{x}
    ensures Ascending([s[0]] + rest)
    ensures multiset([s[0]] + rest) == multiset(s) + multiset{x}
  {
    assert s == [s[0]] + s[1..];
    forall k | 0 <= k < |rest| ensures s[0] <= rest[k] {
      assert rest[k] in multiset(rest);
      if rest[k] != x {
        assert rest[k] in multiset(s[1..]);
      }
    }
    AscendingCons(s[0], rest);
  }

  /** `nums.sort((a, b) => a - b)`: ascending, and the same numbers as before. */
  function SortAscending(nums: seq<int>): (r: seq<int>)
    ensures Ascending(r)
    ensures multiset(r) == multiset(nums)
  {
    if nums == [] then []
    else
      assert nums == [nums[0]] + nums[1..];
      Insert(nums[0], SortAscending(nums[1..]))
  }

  /** `slideNum === specificSlide` or no slide was asked for. */
  predicate Wanted(specific: Option<Num>, n: int) {
    specific == None || specific == Some(Int(n))
  }

  /** The slides the loop of `generateSlides` does not skip, in loop order. */
  function Selected(nums: seq<int>, specific: Option<Num>): (r: seq<int>)
    ensures forall n :: n in r <==> n in nums && Wanted(specific, n)
    ensures Ascending(nums) ==> Ascending(r)
    ensures specific == None ==> r == nums
  {
    if nums == [] then []
    else
      var rest := Selected(nums[1..], specific);
      assert forall n :: n in nums <==> n == nums[0] || n in nums[1..] by {
        assert nums == [nums[0]] + nums[1..];
      }
      assert Ascending(nums) ==> Ascending([nums[0]] + rest) by {
        if Ascending(nums) {
          assert Ascending(nums[1..]);
          forall k | 0 <= k < |rest| ensures nums[0] <= rest[k] {
            assert rest[k] in rest;
            var m :| 0 <= m < |nums[1..]| && nums[1..][m] == rest[k];
            assert nums[1..][m] == nums[m + 1];
          }
          AscendingCons(nums[0], rest);
        }
      }
      if Wanted(specific, nums[0]) then [nums[0]] + rest else rest
  }

  /** `slide-${n}.mp3`: the file requested for slide `n`. */
  function OutputName(n: int): string {
    "slide-" + IntToString(n) + ".mp3"
  }

  /** Distinct slides are requested under distinct file names. */
  lemma OutputNameInjective(m: int, n: int)
    requires OutputName(m) == OutputName(n)
    ensures m == n
  {
    var p := "slide-";
    var a, b := IntToString(m), IntToString(n);
    assert |a| == |b|;
    assert a == OutputName(m)[|p|..|p| + |a|];
    assert b == OutputName(n)[|p|..|p| + |b|];
    IntToStringInjective(m, n);
  }

  /** The clip paths of a list of slides, in the same order. */
  function ClipPaths(slides: seq<int>): seq<string> {
    seq(|slides|, k requires 0 <= k < |slides| => "audio/" + OutputName(slides[k]))
  }

  lemma ClipPathsAppend(slides: seq<int>, x: int)
    ensures ClipPaths(slides + [x]) == ClipPaths(slides) + ["audio/" + OutputName(x)]
  {
  }

  /**
   * The loop of `generateSlides`: the clip paths under `audio/` it requests, one per selected
   * slide in ascending order. A request that fails is logged and writes nothing, and the
   * loop goes on with the next slide.
   */
  method GenerateSlides(keys: seq<int>, specific: Option<Num>) returns (requested: seq<string>)
    ensures requested == ClipPaths(Selected(SortAscending(keys), specific))
  {
    var slideNums := SortAscending(keys);
    requested := [];
    ghost var done: seq<int> := [];
    for i := 0 to |slideNums|
      invariant done == Selected(slideNums[..i], specific)
      invariant requested == ClipPaths(done)
    {
      SelectedStep(slideNums, i, specific);
      if !Wanted(specific, slideNums[i]) {
        continue;
      }
      ClipPathsAppend(done, slideNums[i]);
      requested := requested + ["audio/" + OutputName(slideNums[i])];
      done := done + [slideNums[i]];
    }
    assert slideNums[..|slideNums|] == slideNums;
  }

  /** One more step of the loop of `generateSlides`. */
  lemma SelectedStep(nums: seq<int>, i: nat, specific: Option<Num>)
    requires i < |nums|
    ensures Selected(nums[..i + 1], specific) ==
      Selected(nums[..i], specific) + (if Wanted(specific, nums[i]) then [nums[i]] else [])
  {
    assert nums[..i + 1] == nums[..i] + [nums[i]];
    SelectedAppend(nums[..i], nums[i], specific);
  }

  /** Selecting from a longer list selects from its prefix first. */
  lemma {:induction false} SelectedAppend(nums: seq<int>, x: int, specific: Option<Num>)
    ensures Selected(nums + [x], specific) == Selected(nums, specific) + (if Wanted(specific, x) then [x] else [])
  {
    if nums != [] {
      assert (nums + [x])[1..] == nums[1..] + [x];
      SelectedAppend(nums[1..], x, specific);
    }
  }

  /** With distinct script keys, `--slide n` for a key `n` selects that slide alone. */
  lemma SingleSlideSelected(keys: seq<int>, n: int)
    requires n in keys
    requires forall i, j :: 0 <= i < j < |keys| ==> keys[i] != keys[j]
    ensures Selected(SortAscending(keys), Some(Int(n))) == [n]
  {
    DistinctCount(keys, n);
    SelectOnce(SortAscending(keys), n);
  }

  /** `--slide n` picks exactly `[n]` from a list that holds `n` once. */
  lemma SelectOnce(nums: seq<int>, n: int)
    requires multiset(nums)[n] == 1
    ensures Selected(nums, Some(Int(n))) == [n]
  {
    var r := Selected(nums, Some(Int(n)));
    assert n in multiset(nums);
    SelectedCount(nums, Some(Int(n)), n);
    OnlyValue(r, n);
    assert n in r;
  }

  /** A sequence holding only `n` holds it as many times as it is long. */
  lemma {:induction false} OnlyValue(r: seq<int>, n: int)
    requires forall m :: m in r ==> m == n
    ensures multiset(r)[n] == |r|
  {
    if r != [] {
      assert r == [r[0]] + r[1..];
      assert forall m :: m in r[1..] ==> m in r;
      assert r[0] in r;
      assert multiset(r) == multiset{r[0]} + multiset(r[1..]);
      OnlyValue(r[1..], n);
      assert r[0] == n;
      assert multiset(r)[n] == multiset{r[0]}[n] + multiset(r[1..])[n];
    }
  }

  lemma {:induction false} DistinctCount(s: seq<int>, n: int)
    requires n in s
    requires forall i, j :: 0 <= i < j < |s| ==> s[i] != s[j]
    ensures multiset(s)[n] == 1
  {
    assert s == [s[0]] + s[1..];
    if s[0] == n {
      assert n !in s[1..];
    } else {
      DistinctCount(s[1..], n);
    }
  }

  lemma {:induction false} SelectedCount(nums: seq<int>, specific: Option<Num>, n: int)
    ensures multiset(Selected(nums, specific))[n] <= multiset(nums)[n]
  {
    if nums != [] {
      assert nums == [nums[0]] + nums[1..];
      SelectedCount(nums[1..], specific, n);
    }
  }

  // ---------------------------------------------------------------------------
  // main
  // ---------------------------------------------------------------------------

  /** How a run of the generator ends. */
  datatype Outcome =
    | ShowUsage
    | MissingApiKey
    | SlideNotFound(slide: Num)
    | Generated(files: seq<string>)

  /** `NARRATION_SCRIPTS[n]` is truthy: a script with text exists for `n`. */
  predicate HasScript(scripts: map<int, string>, n: Num) {
    n.Int? && n.value in scripts && scripts[n.value] != ""
  }

  /**
   * `main` after the `.env` file is loaded: scan the arguments, require an API key, check the
   * requested slide, then generate. `keys` is `Object.keys(NARRATION_SCRIPTS)` read as numbers.
   */
  method RunGenerator(args: seq<string>, env: map<string, string>, scripts: map<int, string>, keys: seq<int>)
    returns (outcome: Outcome)
    requires forall k :: k in keys <==> k in scripts
    ensures outcome == ShowUsage <==> AsksForHelp(args)
    ensures outcome == MissingApiKey <==> !AsksForHelp(args) && !IsSet(env, ApiKeyVar)
    ensures var wanted := SpecificSlide(args, |args|);
      outcome.SlideNotFound? <==>
        !AsksForHelp(args) && IsSet(env, ApiKeyVar) && wanted.Some? && !HasScript(scripts, wanted.value)
    ensures outcome.SlideNotFound? ==> outcome.slide == SpecificSlide(args, |args|).value
    ensures outcome.Generated? ==>
      outcome.files == ClipPaths(Selected(SortAscending(keys), SpecificSlide(args, |args|)))
    ensures outcome.Generated? ==>
      IsSet(env, ApiKeyVar) && forall f :: f in outcome.files ==> exists n :: n in scripts && f == "audio/" + OutputName(n)
  {
    var scan := ScanArgs(args);
    if scan == Help {
      return ShowUsage;
    }
    if !IsSet(env, ApiKeyVar) {
      return MissingApiKey;
    }
    if scan.specificSlide.Some? && !HasScript(scripts, scan.specificSlide.value) {
      return SlideNotFound(scan.specificSlide.value);
    }
    var files := GenerateSlides(keys, scan.specificSlide);
    ghost var sel := Selected(SortAscending(keys), scan.specificSlide);
    forall f | f in files
      ensures exists n :: n in scripts && f == "audio/" + OutputName(n)
    {
      var k :| 0 <= k < |files| && files[k] == f;
      assert sel[k] in sel;
      assert sel[k] in multiset(SortAscending(keys));
      assert sel[k] in multiset(keys);
    }
    return Generated(files);
  }

  /** `--slide 5` with scripts for slides 1 and 5 requests `audio/slide-5.mp3` and nothing else. */
  method RegenerateOneSlide() {
    var args := ["--slide", IntToString(5)];
    var env := map[ApiKeyVar := "key"];
    var scripts := map[1 := "Welcome", 5 := "Numbers"];
    var keys := [5, 1];
    assert forall k :: k in keys <==> k in scripts;
    assert !AsksForHelp(args) by {
      NumberIsNoFlag(5);
      assert !IsHelpFlag(args[1]) by {
        assert IsDecimalDigit(args[1][|args[1]| - 1]);
      }
    }
    assert SpecificSlide(args, 2) == Some(Int(5)) by {
      NumberIsNoFlag(5);
      assert SlideFlagAt(args, 0) && !SlideFlagAt(args, 1);
      assert LastSlideFlag(args, 2) == 0;
      ParseIntRoundTrip(5);
    }
    assert HasScript(scripts, Int(5));
    SingleSlideSelected(keys, 5);
    var outcome := RunGenerator(args, env, scripts, keys);
    assert outcome.Generated?;
    assert outcome.files == ClipPaths([5]);
  }
}
