/**
 * conda_press/config.py: the `Config` record of a conversion run, its three
 * queries (all channels, all platform subdirectories, the cleaned dependency
 * set), the shared-library extension chosen by operating system, and the overlay
 * of an already-parsed YAML document onto a `Config` object.
 *
 * Config fields hold Python values (`Value`): the dataclass annotations are not
 * enforced, and a YAML override is stored with whatever shape it has.
 */
module PressConfig {
  import opened Wrappers
  import opened PyValues

  /** The channels searched after the user's own, in this order. */
  const DefaultChannels: seq<string> := ["conda-forge", "anaconda", "main", "r"]

  /** The platform-independent subdirectory, always tried last. */
  const Noarch: string := "noarch"

  /**
   * The shared-library file extension for the operating system `system` reports;
   * any other system is refused with a `ValueError`.
   */
  function SoExt(system: string): (r: Result<string, PyError>)
    ensures r.Success? <==> system == "Linux" || system == "Darwin" || system == "Windows"
    ensures r.Success? ==> StartsWith(r.value, ".") && |r.value| > 1
    ensures r.Failure? ==> r.error == ValueError("System " + system + " is not supported.")
  {
    if system == "Linux" then Success(".so")
    else if system == "Darwin" then Success(".dylib")
    else if system == "Windows" then Success(".dll")
    else Failure(ValueError("System " + system + " is not supported."))
  }

  /** Distinct supported systems never share an extension. */
  lemma SoExtInjective(a: string, b: string)
    requires SoExt(a).Success? && SoExt(b).Success? && a != b
    ensures SoExt(a).value != SoExt(b).value
  {
  }

  /** The value of a `Config` object: its eleven fields, in declaration order. */
  datatype Settings = Settings(
    subdir: Value,
    channels: Value,
    output: Value,
    excludeDeps: Value,
    addDeps: Value,
    skipPython: Value,
    stripSymbols: Value,
    fatten: Value,
    merge: Value,
    onlyPypi: Value,
    includeRequirements: Value)

  /**
   * The dataclass defaults: no subdirectories, channels or dependency overrides,
   * no output path, symbols stripped and requirements included, every other flag off.
   * A keyword construction `Config(fatten=True)` is `DefaultSettings.(fatten := Bool(true))`.
   */
  const DefaultSettings: Settings := Settings(
    List([]), List([]), Null, Set({}), Set({}),
    Bool(false), Bool(true), Bool(false), Bool(false), Bool(false), Bool(true))

  class Config {
    var subdir: Value
    var channels: Value
    var output: Value
    var excludeDeps: Value
    var addDeps: Value
    var skipPython: Value
    var stripSymbols: Value
    var fatten: Value
    var merge: Value
    var onlyPypi: Value
    var includeRequirements: Value

    /** The object's current field values. */
    function Snapshot(): Settings
      reads this
    {
      Settings(subdir, channels, output, excludeDeps, addDeps, skipPython,
               stripSymbols, fatten, merge, onlyPypi, includeRequirements)
    }

    /** `Config()`: every field at its default. */
    constructor ()
      ensures Snapshot() == DefaultSettings
      ensures subdir == List([]) && channels == List([]) && output == Null
      ensures addDeps == Set({}) && excludeDeps == Set({})
      ensures stripSymbols == Bool(true) && includeRequirements == Bool(true)
      ensures skipPython == fatten == merge == onlyPypi == Bool(false)
    {
      subdir, channels, output := List([]), List([]), Null;
      excludeDeps, addDeps := Set({}), Set({});
      skipPython, stripSymbols, fatten := Bool(false), Bool(true), Bool(false);
      merge, onlyPypi, includeRequirements := Bool(false), Bool(false), Bool(true);
    }

    /** `Config(**fields)`: the fields as given, stored without any check. */
    constructor FromSettings(s: Settings)
      ensures Snapshot() == s
    {
      subdir, channels, output := s.subdir, s.channels, s.output;
      excludeDeps, addDeps := s.excludeDeps, s.addDeps;
      skipPython, stripSymbols, fatten := s.skipPython, s.stripSymbols, s.fatten;
      merge, onlyPypi, includeRequirements := s.merge, s.onlyPypi, s.includeRequirements;
    }

    /**
     * `get_all_channels`: the user's channels in their own order, then exactly the
     * default channels; a `TypeError` when `channels` is not a list.
     */
    function AllChannels(): (r: Result<seq<Value>, PyError>)
      reads this
      ensures r.Success? <==> channels.List?
      ensures r.Failure? ==> r.error == TypeError
      ensures r.Success? ==> |r.value| == |channels.items| + 4
      ensures r.Success? ==> r.value[..|channels.items|] == channels.items
      ensures r.Success? ==>
        r.value[|channels.items|..] == [Str("conda-forge"), Str("anaconda"), Str("main"), Str("r")]
    {
      if channels.List? then Success(channels.items + Strs(DefaultChannels))
      else Failure(TypeError)
    }

    /**
     * `get_all_subdir`: the configured subdirectory (a string) or subdirectories (a
     * list, in order, duplicates kept), followed by the `noarch` fallback, which is
     * always last; a `TypeError` for any other shape.
     */
    function AllSubdirs(): (r: Result<seq<Value>, PyError>)
      reads this
      ensures r.Success? <==> subdir.Str? || subdir.List?
      ensures r.Failure? ==> r.error == TypeError
      ensures r.Success? ==> |r.value| >= 1 && r.value[|r.value| - 1] == Str(Noarch)
      ensures subdir.Str? ==> r == Success([subdir, Str(Noarch)])
      ensures subdir.List? ==> r.Success? && r.value[..|r.value| - 1] == subdir.items
    {
      if subdir.Str? then Success([subdir, Str(Noarch)])
      else if subdir.List? then Success(subdir.items + [Str(Noarch)])
      else Failure(TypeError)
    }

    /**
     * `clean_deps`: the given dependency names plus the added ones, minus the
     * excluded ones. Exclusion wins over addition; every name that is given or
     * added and not excluded is kept; nothing else appears. Raises `TypeError`
     * exactly when one of the three cannot be read as a set of names.
     */
    function CleanDeps(listDeps: Value): (r: Result<set<Value>, PyError>)
      reads this
      ensures r.Success? <==> ToSet(listDeps).Success? && ToSet(addDeps).Success? && ToSet(excludeDeps).Success?
      ensures r.Failure? ==> r.error == TypeError
      ensures r.Success? ==> forall n :: n in r.value ==> n !in Elems(excludeDeps)
      ensures r.Success? ==> forall n :: n in Elems(listDeps) && n !in Elems(excludeDeps) ==> n in r.value
      ensures r.Success? ==> forall n :: n in Elems(addDeps) && n !in Elems(excludeDeps) ==> n in r.value
      ensures r.Success? ==> forall n :: n in r.value ==> n in Elems(listDeps) || n in Elems(addDeps)
    {
      var given :- ToSet(listDeps);
      var added :- ToSet(addDeps);
      var excluded :- ToSet(excludeDeps);
      Success((given + added) - excluded)
    }
  }

  /** `clean_deps` applied to its own result changes nothing. */
  lemma CleanDepsIdempotent(c: Config, deps: Value)
    requires c.CleanDeps(deps).Success?
    ensures c.CleanDeps(Set(c.CleanDeps(deps).value)) == c.CleanDeps(deps)
  {
    var r := c.CleanDeps(deps).value;
    var added, excluded := Elems(c.addDeps), Elems(c.excludeDeps);
    assert r == (Elems(deps) + added) - excluded;
    assert ToSet(Set(r)) == Success(r);
    assert (r + added) - excluded == r;
  }

  /**
   * `clean_deps` sees only the set of names it is given: a list, duplicates and
   * order included, gives the same result (or the same error) as the set of its items.
   */
  lemma CleanDepsOnlySeesSet(c: Config, xs: seq<Value>)
    ensures c.CleanDeps(List(xs)) == c.CleanDeps(Set(set x | x in xs))
  {
    assert Iterated(List(xs)) == Iterated(Set(set x | x in xs));
  }

  /** Declared `opencv` plus added `six`, nothing excluded: both names are kept. */
  lemma CleanDepsExamples(c: Config)
    requires c.addDeps == Set({Str("six")}) && c.excludeDeps == Set({})
    ensures c.CleanDeps(List([Str("opencv")])) == Success({Str("opencv"), Str("six")})
  {
    var xs := [Str("opencv")];
    assert (set y | y in xs) == {Str("opencv")};
    assert ToSet(List(xs)) == Success({Str("opencv")});
    assert ToSet(c.addDeps) == Success({Str("six")});
    assert ToSet(c.excludeDeps) == Success({});
    assert ({Str("opencv")} + {Str("six")}) - {} == {Str("opencv"), Str("six")};
  }

  /** Excluding `opencv` and adding `opencv-python` replaces the one dependency by the other. */
  lemma CleanDepsReplacement(c: Config)
    requires c.addDeps == Set({Str("opencv-python")}) && c.excludeDeps == Set({Str("opencv")})
    ensures c.CleanDeps(List([Str("opencv")])) == Success({Str("opencv-python")})
  {
    var xs := [Str("opencv")];
    assert (set y | y in xs) == {Str("opencv")};
    assert ToSet(List(xs)) == Success({Str("opencv")});
    assert ToSet(c.addDeps) == Success({Str("opencv-python")});
    assert ToSet(c.excludeDeps) == Success({Str("opencv")});
    assert ({Str("opencv")} + {Str("opencv-python")}) - {Str("opencv")} == {Str("opencv-python")};
  }

  /** The YAML keys that name `Config` fields, in the order the overlay assigns them. */
  datatype Field =
    | SubdirField | OutputField | ChannelsField | FattenField | SkipPythonField
    | StripSymbolsField | MergeField | AddDepsField | ExcludeDepsField
    | OnlyPypiField | IncludeRequirementsField

  /** The position of `f` in the overlay's sequence of assignments. */
  function Step(f: Field): nat
  {
    match f
    case SubdirField => 0
    case OutputField => 1
    case ChannelsField => 2
    case FattenField => 3
    case SkipPythonField => 4
    case StripSymbolsField => 5
    case MergeField => 6
    case AddDepsField => 7
    case ExcludeDepsField => 8
    case OnlyPypiField => 9
    case IncludeRequirementsField => 10
  }

  /** The YAML key of field `f`. */
  function Key(f: Field): string
  {
    match f
    case SubdirField => "subdir"
    case OutputField => "output"
    case ChannelsField => "channels"
    case FattenField => "fatten"
    case SkipPythonField => "skip_python"
    case StripSymbolsField => "strip_symbols"
    case MergeField => "merge"
    case AddDepsField => "add_deps"
    case ExcludeDepsField => "exclude_deps"
    case OnlyPypiField => "only_pypi"
    case IncludeRequirementsField => "include_requirements"
  }

  /** The value of field `f` in `s`. */
  function Get(s: Settings, f: Field): Value
  {
    match f
    case SubdirField => s.subdir
    case OutputField => s.output
    case ChannelsField => s.channels
    case FattenField => s.fatten
    case SkipPythonField => s.skipPython
    case StripSymbolsField => s.stripSymbols
    case MergeField => s.merge
    case AddDepsField => s.addDeps
    case ExcludeDepsField => s.excludeDeps
    case OnlyPypiField => s.onlyPypi
    case IncludeRequirementsField => s.includeRequirements
  }

  /** The section of the document the overlay reads: the nested `conda_press` mapping when there is one. */
  function SelectSection(doc: Value): (r: Result<map<string, Value>, PyError>)
    ensures r.Success? <==> doc.Dict? && ("conda_press" in doc.entries ==> doc.entries["conda_press"].Dict?)
    ensures r.Success? && "conda_press" in doc.entries ==> r.value == doc.entries["conda_press"].entries
    ensures r.Success? && "conda_press" !in doc.entries ==> r.value == doc.entries
    ensures r.Failure? ==> r.error == TypeError || r.error == AttributeError
  {
    match doc
    case Dict(m) =>
      if "conda_press" in m then
        (if m["conda_press"].Dict? then Success(m["conda_press"].entries) else Failure(AttributeError))
      else Success(m)
    // `"conda_press" in doc` on a non-mapping: a TypeError for None and booleans,
    // otherwise either the subscript `doc["conda_press"]` or `doc.get` fails.
    case Str(s) => if Contains(s, "conda_press") then Failure(TypeError) else Failure(AttributeError)
    case List(xs) => if Str("conda_press") in xs then Failure(TypeError) else Failure(AttributeError)
    case Set(e) => if Str("conda_press") in e then Failure(TypeError) else Failure(AttributeError)
    case _ => Failure(TypeError)
  }

  /** `key` is present in the section with a value other than None. */
  predicate Present(n: map<string, Value>, key: string) {
    key in n && n[key] != Null
  }

  /** `yaml_attr`: the section's value for `key` unless it is missing or None, else the field's current value. */
  function YamlAttr(n: map<string, Value>, key: string, current: Value): (r: Value)
  {
    if Present(n, key) then n[key] else current
  }

  /**
   * `yaml_attr` takes either the field's current value or the section's value
   * for the key; a None in the section never replaces a value that is not None.
   */
  lemma YamlAttrChoice(n: map<string, Value>, key: string, current: Value)
    ensures YamlAttr(n, key, current) == current || (key in n && YamlAttr(n, key, current) == n[key])
    ensures YamlAttr(n, key, current) == Null ==> current == Null
    ensures key !in n ==> YamlAttr(n, key, current) == current
    ensures Present(n, key) ==> YamlAttr(n, key, current) == n[key]
    ensures !Present(n, key) ==> YamlAttr(n, key, current) == current
  {
  }

  /** `convert_to_list`: a string becomes a one-element list; anything else is kept. */
  function ConvertToList(v: Value): (r: Value)
  {
    if v.Str? then List([v]) else v
  }

  /**
   * `convert_to_set`: a string becomes a one-element set, a list the set of its
   * items (a `TypeError` for an unhashable item), anything else is kept.
   */
  function ConvertToSet(v: Value): (r: Result<Value, PyError>)
    ensures v.Str? ==> r == Success(Set({v}))
    ensures v.List? ==> (r.Success? <==> forall x :: x in v.items ==> Hashable(x))
    ensures v.List? && r.Success? ==> r.value.Set? && forall x :: x in r.value.elems <==> x in v.items
    ensures v.List? && r.Failure? ==> r.error == TypeError
    ensures !v.Str? && !v.List? ==> r == Success(v)
  {
    if v.Str? then Success(Set({v}))
    else if v.List? then
      var e :- ToSet(v);
      Success(Set(e))
    else Success(v)
  }

  /** Normalisation is idempotent. */
  lemma ConvertIdempotent(v: Value)
    ensures !ConvertToList(v).Str? && ConvertToList(ConvertToList(v)) == ConvertToList(v)
    ensures ConvertToSet(v).Success? ==> ConvertToSet(ConvertToSet(v).value) == ConvertToSet(v)
  {
  }

  /** The normalisation the overlay applies to field `f`. */
  function Convert(f: Field, v: Value): Result<Value, PyError>
  {
    match f
    case ChannelsField => Success(ConvertToList(v))
    case AddDepsField => ConvertToSet(v)
    case ExcludeDepsField => ConvertToSet(v)
    case _ => Success(v)
  }

  /** What the overlay computes for field `f` of `s` from section `n`. */
  function Merged(n: map<string, Value>, s: Settings, f: Field): Result<Value, PyError>
  {
    Convert(f, YamlAttr(n, Key(f), Get(s, f)))
  }

  /** The outcome of an overlay: the fields as they stand afterwards, and the exception raised, if any. */
  datatype MergeOutcome = MergeOutcome(settings: Settings, error: Option<PyError>)

  /**
   * The assignments of `get_config_by_yaml`, in source order, on section `n`;
   * a `convert_to_set` that raises stops the sequence with the earlier fields
   * already assigned.
   */
  function OverlaySection(n: map<string, Value>, s: Settings): (r: MergeOutcome)
  {
    var s1 := s.(
      subdir := YamlAttr(n, "subdir", s.subdir),
      output := YamlAttr(n, "output", s.output),
      channels := ConvertToList(YamlAttr(n, "channels", s.channels)),
      fatten := YamlAttr(n, "fatten", s.fatten),
      skipPython := YamlAttr(n, "skip_python", s.skipPython),
      stripSymbols := YamlAttr(n, "strip_symbols", s.stripSymbols),
      merge := YamlAttr(n, "merge", s.merge));
    match ConvertToSet(YamlAttr(n, "add_deps", s1.addDeps))
    case Failure(e) => MergeOutcome(s1, Some(e))
    case Success(added) =>
      var s2 := s1.(addDeps := added);
      match ConvertToSet(YamlAttr(n, "exclude_deps", s2.excludeDeps))
      case Failure(e) => MergeOutcome(s2, Some(e))
      case Success(excluded) =>
        MergeOutcome(s2.(
          excludeDeps := excluded,
          onlyPypi := YamlAttr(n, "only_pypi", s2.onlyPypi),
          includeRequirements := YamlAttr(n, "include_requirements", s2.includeRequirements)), None)
  }

  /** The whole overlay: select the section, then assign; a section that is not a mapping changes nothing. */
  function Overlay(doc: Value, s: Settings): (r: MergeOutcome)
    ensures r.error.None? || r.error == Some(TypeError) || r.error == Some(AttributeError)
    ensures !doc.Dict? ==> r.error.Some? && r.settings == s
  {
    match SelectSection(doc)
    case Failure(e) => MergeOutcome(s, Some(e))
    case Success(n) => OverlaySection(n, s)
  }

  /** The step at which the overlay of `n` onto `s` raises, or 11 when it does not. */
  function FailingStep(n: map<string, Value>, s: Settings): nat
  {
    if Merged(n, s, AddDepsField).Failure? then Step(AddDepsField)
    else if Merged(n, s, ExcludeDepsField).Failure? then Step(ExcludeDepsField)
    else 11
  }

  /**
   * Field by field: every field assigned before the failing step (all of them
   * when nothing fails) holds its merged value, the section's value if present
   * and not None, the prior value otherwise, normalised; every later field keeps
   * its prior value. The only exception is a `TypeError` from `convert_to_set`.
   */
  lemma OverlayFieldwise(n: map<string, Value>, s: Settings)
    ensures OverlaySection(n, s).error.None? <==> FailingStep(n, s) == 11
    ensures OverlaySection(n, s).error.Some? ==> OverlaySection(n, s).error.value == TypeError
    ensures forall f :: Step(f) < FailingStep(n, s) ==>
      Merged(n, s, f) == Success(Get(OverlaySection(n, s).settings, f))
    ensures forall f :: Step(f) >= FailingStep(n, s) ==>
      Get(OverlaySection(n, s).settings, f) == Get(s, f)
  {
    var r := OverlaySection(n, s);
    forall f | Step(f) < FailingStep(n, s)
      ensures Merged(n, s, f) == Success(Get(r.settings, f))
    {
      match f
      case AddDepsField =>
      case ExcludeDepsField =>
      case _ =>
    }
  }

  /** The shape the dataclass annotates for field `f`. */
  predicate FieldTyped(f: Field, v: Value) {
    match f
    case SubdirField => v.Str? || IsStrList(v)
    case OutputField => v.Null? || v.Str?
    case ChannelsField => IsStrList(v)
    case AddDepsField => IsStrSet(v)
    case ExcludeDepsField => IsStrSet(v)
    case _ => v.Bool?
  }

  /** A configuration whose fields all have their annotated shapes. */
  predicate WellTyped(s: Settings) {
    forall f :: FieldTyped(f, Get(s, f))
  }

  predicate IsStrList(v: Value) {
    v.List? && forall x :: x in v.items ==> x.Str?
  }

  predicate IsStrSet(v: Value) {
    v.Set? && forall x :: x in v.elems ==> x.Str?
  }

  /** A value the key may carry in a configuration document (None stands for "not given"). */
  predicate ShapedFor(f: Field, v: Value) {
    match f
    case SubdirField => v.Null? || v.Str? || IsStrList(v)
    case OutputField => v.Null? || v.Str?
    case ChannelsField => v.Null? || v.Str? || IsStrList(v)
    case AddDepsField => v.Null? || v.Str? || IsStrList(v)
    case ExcludeDepsField => v.Null? || v.Str? || IsStrList(v)
    case _ => v.Null? || v.Bool?
  }

  /** The section gives field `f` a value of an accepted shape, or does not mention it. */
  predicate KeyShaped(n: map<string, Value>, f: Field) {
    Key(f) in n ==> ShapedFor(f, n[Key(f)])
  }

  predicate WellShaped(n: map<string, Value>) {
    forall f :: KeyShaped(n, f)
  }

  /** The defaults have the annotated shapes. */
  lemma DefaultWellTyped()
    ensures WellTyped(DefaultSettings)
  {
    forall f ensures FieldTyped(f, Get(DefaultSettings, f)) {
      match f
      case _ =>
    }
  }

  /**
   * One field: a well-shaped value for a well-typed field converts without an
   * exception to a well-typed value, and a missing or None key keeps the field.
   */
  lemma MergedTyped(n: map<string, Value>, s: Settings, f: Field)
    requires FieldTyped(f, Get(s, f)) && KeyShaped(n, f)
    ensures Merged(n, s, f).Success? && FieldTyped(f, Merged(n, s, f).value)
    ensures !Present(n, Key(f)) ==> Merged(n, s, f) == Success(Get(s, f))
  {
    var v := YamlAttr(n, Key(f), Get(s, f));
    if f == AddDepsField || f == ExcludeDepsField {
      if v.List? {
        assert IsStrList(v);
        assert forall x :: x in v.items ==> Hashable(x);
      }
    }
  }

  /**
   * Overlaying a well-shaped section onto a well-typed configuration raises
   * nothing, keeps the configuration well-typed, and leaves every field whose
   * key is missing or None exactly as it was.
   */
  lemma OverlayWellTyped(n: map<string, Value>, s: Settings)
    requires WellTyped(s) && WellShaped(n)
    ensures OverlaySection(n, s).error.None?
    ensures WellTyped(OverlaySection(n, s).settings)
    ensures forall f :: !Present(n, Key(f)) ==> Get(OverlaySection(n, s).settings, f) == Get(s, f)
  {
    forall f ensures Merged(n, s, f).Success? && FieldTyped(f, Merged(n, s, f).value)
      && (!Present(n, Key(f)) ==> Merged(n, s, f) == Success(Get(s, f)))
    {
      MergedTyped(n, s, f);
    }
    OverlayFieldwise(n, s);
  }

  /** Overlaying the same section twice is the same as once. */
  lemma OverlayIdempotent(n: map<string, Value>, s: Settings)
    requires OverlaySection(n, s).error.None?
    ensures OverlaySection(n, OverlaySection(n, s).settings) == OverlaySection(n, s)
  {
  }

  /** Section `b` layered over `a`: `b`'s keys win where their value is not None. */
  function Layer(a: map<string, Value>, b: map<string, Value>): map<string, Value>
  {
    a + map k | k in b && b[k] != Null :: b[k]
  }

  /** Two settings that agree on every field are equal. */
  lemma SettingsByFields(s: Settings, t: Settings)
    requires forall f :: Get(s, f) == Get(t, f)
    ensures s == t
  {
    assert Get(s, SubdirField) == Get(t, SubdirField) && Get(s, OutputField) == Get(t, OutputField);
    assert Get(s, ChannelsField) == Get(t, ChannelsField) && Get(s, FattenField) == Get(t, FattenField);
    assert Get(s, SkipPythonField) == Get(t, SkipPythonField) && Get(s, MergeField) == Get(t, MergeField);
    assert Get(s, StripSymbolsField) == Get(t, StripSymbolsField) && Get(s, OnlyPypiField) == Get(t, OnlyPypiField);
    assert Get(s, AddDepsField) == Get(t, AddDepsField) && Get(s, ExcludeDepsField) == Get(t, ExcludeDepsField);
    assert Get(s, IncludeRequirementsField) == Get(t, IncludeRequirementsField);
  }

  /** Normalising a normalised value changes nothing. */
  lemma ConvertTwice(f: Field, v: Value)
    requires Convert(f, v).Success?
    ensures Convert(f, Convert(f, v).value) == Convert(f, v)
  {
    ConvertIdempotent(v);
  }

  /** Field `f` merged from `b` over an earlier merge from `a` is `f` merged once from the layered sections. */
  lemma ComposeField(a: map<string, Value>, b: map<string, Value>, s: Settings, s1: Settings, f: Field)
    requires Merged(a, s, f) == Success(Get(s1, f))
    ensures Merged(b, s1, f) == Merged(Layer(a, b), s, f)
  {
    var k := Key(f);
    if !Present(b, k) {
      assert YamlAttr(Layer(a, b), k, Get(s, f)) == YamlAttr(a, k, Get(s, f));
      ConvertTwice(f, YamlAttr(a, k, Get(s, f)));
    }
  }

  /** Two overlays that raise nothing and merge every field alike give the same settings. */
  lemma OverlayByMerged(n: map<string, Value>, s: Settings, m: map<string, Value>, t: Settings)
    requires OverlaySection(n, s).error.None? && OverlaySection(m, t).error.None?
    requires forall f :: Merged(n, s, f) == Merged(m, t, f)
    ensures OverlaySection(n, s) == OverlaySection(m, t)
  {
    OverlayFieldwise(n, s);
    OverlayFieldwise(m, t);
    SettingsByFields(OverlaySection(n, s).settings, OverlaySection(m, t).settings);
  }

  /** Two overlays in a row are one overlay of the layered sections. */
  lemma OverlayCompose(a: map<string, Value>, b: map<string, Value>, s: Settings)
    requires OverlaySection(a, s).error.None?
    requires OverlaySection(b, OverlaySection(a, s).settings).error.None?
    ensures OverlaySection(b, OverlaySection(a, s).settings) == OverlaySection(Layer(a, b), s)
  {
    var s1 := OverlaySection(a, s).settings;
    OverlayFieldwise(a, s);
    forall f ensures Merged(b, s1, f) == Merged(Layer(a, b), s, f) {
      ComposeField(a, b, s, s1, f);
    }
    OverlayFieldwise(Layer(a, b), s);
    OverlayByMerged(b, s1, Layer(a, b), s);
  }

  /**
   * The body of `get_config_by_yaml` once it has a `Config`: select the section,
   * then assign the fields one after another. On an exception the fields
   * assigned before it keep their new values.
   */
  method OverlayInto(doc: Value, c: Config) returns (err: Option<PyError>)
    modifies c
    ensures c.Snapshot() == Overlay(doc, old(c.Snapshot())).settings
    ensures err == Overlay(doc, old(c.Snapshot())).error
  {
    ghost var s0 := c.Snapshot();
    var selected := SelectSection(doc);
    if selected.Failure? {
      return Some(selected.error);
    }
    var section := selected.value;
    ghost var outcome := OverlaySection(section, s0);
    c.subdir := YamlAttr(section, "subdir", c.subdir);
    c.output := YamlAttr(section, "output", c.output);
    c.channels := ConvertToList(YamlAttr(section, "channels", c.channels));
    c.fatten := YamlAttr(section, "fatten", c.fatten);
    c.skipPython := YamlAttr(section, "skip_python", c.skipPython);
    c.stripSymbols := YamlAttr(section, "strip_symbols", c.stripSymbols);
    c.merge := YamlAttr(section, "merge", c.merge);
    var added := ConvertToSet(YamlAttr(section, "add_deps", c.addDeps));
    if added.Failure? {
      assert outcome == MergeOutcome(c.Snapshot(), Some(added.error));
      return Some(added.error);
    }
    c.addDeps := added.value;
    var excluded := ConvertToSet(YamlAttr(section, "exclude_deps", c.excludeDeps));
    if excluded.Failure? {
      assert outcome == MergeOutcome(c.Snapshot(), Some(excluded.error));
      return Some(excluded.error);
    }
    c.excludeDeps := excluded.value;
    c.onlyPypi := YamlAttr(section, "only_pypi", c.onlyPypi);
    c.includeRequirements := YamlAttr(section, "include_requirements", c.includeRequirements);
    assert outcome == MergeOutcome(c.Snapshot(), None);
    return None;
  }

  /**
   * `get_config_by_yaml` on an already-parsed document: fills `config`, or a new
   * default `Config` when none is given, and returns it, or raises.
   */
  method GetConfigByYaml(doc: Value, config: Config?) returns (r: Result<Config, PyError>)
    modifies config
    ensures config != null ==> config.Snapshot() == Overlay(doc, old(config.Snapshot())).settings
    ensures config != null ==> r == match Overlay(doc, old(config.Snapshot())).error
                                    case None => Success(config)
                                    case Some(e) => Failure(e)
    ensures config == null && r.Success? ==>
      fresh(r.value) && r.value.Snapshot() == Overlay(doc, DefaultSettings).settings
    ensures config == null ==> (r.Failure? <==> Overlay(doc, DefaultSettings).error.Some?)
    ensures config == null && r.Failure? ==> Overlay(doc, DefaultSettings).error == Some(r.error)
  {
    var c: Config;
    if config == null {
      c := new Config();
    } else {
      c := config;
    }
    var err := OverlayInto(doc, c);
    if err.Some? {
      return Failure(err.value);
    }
    return Success(c);
  }
}
