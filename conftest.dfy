/**
 * tests/conftest.py: how `download_artifact` turns an artifact reference into
 * the one package record it fetches (routing to the arch or noarch index, the
 * interpreter-tag filter, the pick of the last survivor), and the order in which
 * the dependency-tree fixture hands the produced wheels to the installer.
 *
 * The index queries are parameters (`archIndex`, `noarchIndex`: reference ->
 * records in the order the index returns them); the running interpreter's
 * version is given as `major` and `minor`.
 */
module Conftest {
  import opened Wrappers
  import opened PyValues

  /** A record returned by an index query: file name, download URL, build string. */
  datatype PackageRecord = PackageRecord(fn: string, url: string, build: string)

  /** The position of the first `c` in `s`, or `|s|` when there is none. */
  function IndexOf(s: string, c: char): (i: nat)
    ensures i <= |s|
    ensures i < |s| ==> s[i] == c
    ensures forall j :: 0 <= j < i ==> s[j] != c
  {
    if s == [] then 0
    else if s[0] == c then 0
    else 1 + IndexOf(s[1..], c)
  }

  /**
   * Python's `s.partition(sep)` for a one-character separator: the text before
   * the first `sep`, the separator itself, and the text after it; `(s, "", "")`
   * when `sep` does not occur.
   */
  function Partition(s: string, sep: char): (r: (string, string, string))
    ensures r.0 + r.1 + r.2 == s
    ensures sep !in r.0
    ensures r.1 == [sep] || (r.1 == [] && r.2 == [] && sep !in s)
  {
    var i := IndexOf(s, sep);
    if i == |s| then
      (s, "", "")
    else
      assert s[..i] + [sep] + s[i + 1..] == s;
      (s[..i], [sep], s[i + 1..])
  }

  const NoarchPrefix: string := "noarch/"

  /** Which index a reference is looked up in, and the text that is queried there. */
  datatype Route = Route(noarch: bool, query: string)

  /**
   * A reference starting with `noarch/` goes to the noarch index with the text
   * after the first `/`; any other reference goes unchanged to the arch index.
   */
  function RouteRef(ref: string): (r: Route)
    ensures r.noarch <==> StartsWith(ref, NoarchPrefix)
    ensures r.noarch ==> ref == NoarchPrefix + r.query
    ensures !r.noarch ==> r.query == ref
  {
    if StartsWith(ref, NoarchPrefix) then
      var parts := Partition(ref, '/');
      assert ref[6] == '/' && forall j :: 0 <= j < 6 ==> ref[j] != '/';
      assert |parts.0| == 6;
      assert parts.0 + parts.1 == NoarchPrefix;
      Route(true, parts.2)
    else
      Route(false, ref)
  }

  function Digit(d: nat): char
    requires d < 10
  {
    "0123456789"[d]
  }

  predicate IsDigit(c: char) {
    '0' <= c <= '9'
  }

  /** The number a string of decimal digits denotes, most significant digit first. */
  function DigitsValue(s: string): nat
    requires forall i :: 0 <= i < |s| ==> IsDigit(s[i])
  {
    if s == [] then 0
    else
      assert IsDigit(s[|s| - 1]);
      DigitsValue(s[..|s| - 1]) * 10 + (s[|s| - 1] as int - '0' as int)
  }

  /** `str(n)`: the decimal digits of `n`, without leading zeros. */
  function Decimal(n: nat): (r: string)
    ensures |r| >= 1 && forall i :: 0 <= i < |r| ==> IsDigit(r[i])
    ensures DigitsValue(r) == n
    ensures r[0] == '0' ==> n == 0
    ensures |r| > 1 ==> r[0] != '0'
    decreases n
  {
    if n < 10 then [Digit(n)]
    else
      var r := Decimal(n / 10) + [Digit(n % 10)];
      assert r[..|r| - 1] == Decimal(n / 10);
      r
  }

  /**
   * The interpreter tag `py{major}{minor}`: `py` followed by the digits of
   * `major` and then those of `minor`.
   */
  function PyTag(major: nat, minor: nat): (t: string)
    ensures StartsWith(t, "py") && |t| >= 4
    ensures forall i :: 2 <= i < |t| ==> IsDigit(t[i])
    ensures var k := 2 + |Decimal(major)|;
      2 < k < |t| && DigitsValue(t[2..k]) == major && DigitsValue(t[k..]) == minor
    ensures |t| == 2 + |Decimal(major)| + |Decimal(minor)|
  {
    TagParts(Decimal(major), Decimal(minor));
    "py" + Decimal(major) + Decimal(minor)
  }

  /** `py` followed by two digit strings: digits after `py`, and each string recoverable by slicing. */
  lemma TagParts(a: string, b: string)
    requires forall i :: 0 <= i < |a| ==> IsDigit(a[i])
    requires forall i :: 0 <= i < |b| ==> IsDigit(b[i])
    ensures var t := "py" + a + b;
      && t[..2] == "py" && t[2..2 + |a|] == a && t[2 + |a|..] == b
      && forall i :: 2 <= i < |t| ==> IsDigit(t[i])
  {
    var t := "py" + a + b;
    forall i | 2 <= i < |t| ensures IsDigit(t[i]) {
      if i < 2 + |a| {
        assert t[i] == a[i - 2];
      } else {
        assert t[i] == b[i - 2 - |a|];
      }
    }
  }

  /** The tags of two current interpreters. */
  lemma PyTagValue()
    ensures PyTag(3, 11) == "py311" && PyTag(3, 7) == "py37"
  {
  }

  /** The arch-mode filter: a build naming `py` must also name the interpreter tag. */
  predicate Keep(build: string, tag: string) {
    if Contains(build, "py") then Contains(build, tag) else true
  }

  /**
   * Because the tag itself begins with `py`, a record survives exactly when its
   * build names the tag or does not mention `py` at all.
   */
  lemma KeepWithPyTag(build: string, major: nat, minor: nat)
    ensures Keep(build, PyTag(major, minor)) <==>
      Contains(build, PyTag(major, minor)) || !Contains(build, "py")
  {
    if Contains(build, PyTag(major, minor)) {
      ContainsPrefixOf(build, PyTag(major, minor), "py");
    }
  }

  /** The records that pass the filter, in query order (the loop's result). */
  function Survivors(rs: seq<PackageRecord>, tag: string): (r: seq<PackageRecord>)
    ensures |r| <= |rs|
  {
    if rs == [] then []
    else
      var last := rs[|rs| - 1];
      Survivors(rs[..|rs| - 1], tag) + (if Keep(last.build, tag) then [last] else [])
  }

  /** `idx` places each element of `sub` at a position of `full`, strictly increasing. */
  predicate Embedding(idx: seq<nat>, sub: seq<PackageRecord>, full: seq<PackageRecord>) {
    && |idx| == |sub|
    && (forall k :: 0 <= k < |idx| ==> idx[k] < |full| && full[idx[k]] == sub[k])
    && (forall k, l :: 0 <= k < l < |idx| ==> idx[k] < idx[l])
  }

  /** The positions of the queried records that pass the filter, in increasing order. */
  function KeptPositions(rs: seq<PackageRecord>, tag: string): seq<nat>
  {
    if rs == [] then []
    else KeptPositions(rs[..|rs| - 1], tag) + (if Keep(rs[|rs| - 1].build, tag) then [|rs| - 1] else [])
  }

  /** Exactly the positions whose build passes the filter. */
  predicate AllKept(idx: seq<nat>, rs: seq<PackageRecord>, tag: string) {
    forall j :: 0 <= j < |rs| ==> (j in idx <==> Keep(rs[j].build, tag))
  }

  /**
   * The survivors are an order-preserving subsequence of the queried records,
   * made of exactly the positions whose build passes the filter.
   */
  lemma {:induction false} SurvivorsSubsequence(rs: seq<PackageRecord>, tag: string)
    ensures Embedding(KeptPositions(rs, tag), Survivors(rs, tag), rs)
    ensures AllKept(KeptPositions(rs, tag), rs, tag)
  {
    if rs != [] {
      SurvivorsSubsequence(rs[..|rs| - 1], tag);
      SurvivorsStep(rs, tag);
    }
  }

  /** The inductive step of `SurvivorsSubsequence`: one more queried record. */
  lemma SurvivorsStep(rs: seq<PackageRecord>, tag: string)
    requires rs != []
    requires Embedding(KeptPositions(rs[..|rs| - 1], tag), Survivors(rs[..|rs| - 1], tag), rs[..|rs| - 1])
    requires AllKept(KeptPositions(rs[..|rs| - 1], tag), rs[..|rs| - 1], tag)
    ensures Embedding(KeptPositions(rs, tag), Survivors(rs, tag), rs)
    ensures AllKept(KeptPositions(rs, tag), rs, tag)
  {
    var init, n := rs[..|rs| - 1], |rs| - 1;
    var idx0 := KeptPositions(init, tag);
    var keep := Keep(rs[n].build, tag);
    SplitLast(rs);
    assert KeptPositions(rs, tag) == if keep then idx0 + [n] else idx0;
    assert Survivors(rs, tag) == Survivors(init, tag) + (if keep then [rs[n]] else []);
    EmbeddingGrow(idx0, Survivors(init, tag), init, rs[n], keep);
    AllKeptGrow(idx0, init, rs[n], tag);
  }

  /** A non-empty list is its front followed by its last element. */
  lemma SplitLast<T>(s: seq<T>)
    requires s != []
    ensures s == s[..|s| - 1] + [s[|s| - 1]]
  {
  }

  /** Appending one record to the queried list adds its position exactly when it passes the filter. */
  lemma AllKeptGrow(idx: seq<nat>, init: seq<PackageRecord>, last: PackageRecord, tag: string)
    requires AllKept(idx, init, tag)
    requires forall k :: 0 <= k < |idx| ==> idx[k] < |init|
    ensures AllKept(if Keep(last.build, tag) then idx + [|init|] else idx, init + [last], tag)
  {
    var rs := init + [last];
    var idx' := if Keep(last.build, tag) then idx + [|init|] else idx;
    forall j | 0 <= j < |rs| ensures j in idx' <==> Keep(rs[j].build, tag) {
      if j < |init| {
        assert rs[j] == init[j];
      } else {
        assert |init| !in idx;
      }
    }
  }

  /** Appending one record to the queried list extends an embedding by its position, or not at all. */
  lemma EmbeddingGrow(idx: seq<nat>, sub: seq<PackageRecord>, full: seq<PackageRecord>,
                      last: PackageRecord, keep: bool)
    requires Embedding(idx, sub, full)
    ensures Embedding(if keep then idx + [|full|] else idx, sub + (if keep then [last] else []), full + [last])
    ensures |full| !in idx
  {
    var full' := full + [last];
    assert forall k :: 0 <= k < |idx| ==> full'[idx[k]] == full[idx[k]];
  }

  /**
   * The position of the last queried record that passes the filter, or -1 when
   * none does: every later record fails the filter.
   */
  function LastPassingIndex(rs: seq<PackageRecord>, tag: string): (k: int)
    ensures -1 <= k < |rs|
    ensures k >= 0 ==> Keep(rs[k].build, tag)
    ensures forall l :: k < l < |rs| ==> !Keep(rs[l].build, tag)
  {
    if rs == [] then -1
    else if Keep(rs[|rs| - 1].build, tag) then |rs| - 1
    else
      var k := LastPassingIndex(rs[..|rs| - 1], tag);
      assert forall l :: k < l < |rs| - 1 ==> rs[l] == rs[..|rs| - 1][l];
      k
  }

  /**
   * Something survives exactly when some record passes the filter, and the last
   * survivor is the last queried record that passes it.
   */
  lemma {:induction false} LastSurvivor(rs: seq<PackageRecord>, tag: string)
    ensures Survivors(rs, tag) != [] <==> LastPassingIndex(rs, tag) >= 0
    ensures Survivors(rs, tag) != [] ==>
      Survivors(rs, tag)[|Survivors(rs, tag)| - 1] == rs[LastPassingIndex(rs, tag)]
  {
    if rs != [] {
      var init := rs[..|rs| - 1];
      LastSurvivor(init, tag);
      if !Keep(rs[|rs| - 1].build, tag) {
        assert Survivors(rs, tag) == Survivors(init, tag);
        assert LastPassingIndex(rs, tag) == LastPassingIndex(init, tag);
      }
    }
  }

  /** The message `download_artifact` raises when nothing survives. */
  function NotFound(query: string): (e: PyError)
    ensures e.RuntimeError? && StartsWith(e.message, "could not find ")
    ensures OccursAt(e.message, query, 15)
  {
    RuntimeError("could not find " + query + " on conda-forge")
  }

  /** The record `download_artifact` fetches for `ref`, or the error it raises before fetching. */
  function Selection(ref: string, archIndex: string -> seq<PackageRecord>,
                     noarchIndex: string -> seq<PackageRecord>, tag: string): (r: Result<PackageRecord, PyError>)
    ensures r.Failure? ==> r.error == NotFound(RouteRef(ref).query)
    ensures r.Success? && RouteRef(ref).noarch ==> r.value in noarchIndex(RouteRef(ref).query)
  {
    var route := RouteRef(ref);
    var records := if route.noarch then noarchIndex(route.query) else Survivors(archIndex(route.query), tag);
    if records != [] then Success(records[|records| - 1]) else Failure(NotFound(route.query))
  }

  /** In noarch mode nothing is filtered: the last record for the stripped reference is taken. */
  lemma SelectionNoarch(ref: string, archIndex: string -> seq<PackageRecord>,
                        noarchIndex: string -> seq<PackageRecord>, tag: string)
    requires StartsWith(ref, NoarchPrefix)
    ensures var records := noarchIndex(ref[7..]);
      Selection(ref, archIndex, noarchIndex, tag) ==
        if records != [] then Success(records[|records| - 1]) else Failure(NotFound(ref[7..]))
  {
    assert ref == NoarchPrefix + RouteRef(ref).query;
  }

  /**
   * In arch mode the record chosen is the last one the arch index returns for
   * the unchanged reference whose build passes the filter; when none passes, the
   * error names the reference.
   */
  lemma SelectionArch(ref: string, archIndex: string -> seq<PackageRecord>,
                      noarchIndex: string -> seq<PackageRecord>, tag: string)
    requires !StartsWith(ref, NoarchPrefix)
    ensures var rs := archIndex(ref);
      Selection(ref, archIndex, noarchIndex, tag).Success? <==>
        exists j :: 0 <= j < |rs| && Keep(rs[j].build, tag)
    ensures var rs := archIndex(ref);
      Selection(ref, archIndex, noarchIndex, tag).Success? ==>
        var j := LastPassingIndex(rs, tag);
        0 <= j < |rs| && Selection(ref, archIndex, noarchIndex, tag).value == rs[j] &&
        Keep(rs[j].build, tag) && forall l :: j < l < |rs| ==> !Keep(rs[l].build, tag)
    ensures Selection(ref, archIndex, noarchIndex, tag).Failure? ==>
      Selection(ref, archIndex, noarchIndex, tag).error == NotFound(ref)
  {
    LastSurvivor(archIndex(ref), tag);
  }

  /**
   * `download_artifact` up to the fetch: route the reference, query the index,
   * filter arch records by the interpreter tag with an append loop, and take
   * the last record or raise.
   */
  method DownloadArtifact(ref: string, archIndex: string -> seq<PackageRecord>,
                          noarchIndex: string -> seq<PackageRecord>, major: nat, minor: nat)
    returns (r: Result<PackageRecord, PyError>)
    ensures r == Selection(ref, archIndex, noarchIndex, PyTag(major, minor))
  {
    var noarch: bool;
    var query := ref;
    if StartsWith(ref, NoarchPrefix) {
      noarch := true;
      var (_, _, rest) := Partition(ref, '/');
      query := rest;
    } else {
      noarch := false;
    }
    var records := if noarch then noarchIndex(query) else archIndex(query);
    var tag := PyTag(major, minor);
    if !noarch {
      var filtered := [];
      for i := 0 to |records|
        invariant filtered == Survivors(records[..i], tag)
      {
        var rec := records[i];
        assert records[..i + 1][..i] == records[..i];
        if Contains(rec.build, "py") {
          if Contains(rec.build, tag) {
            filtered := filtered + [rec];
          }
        } else {
          filtered := filtered + [rec];
        }
      }
      assert records[..|records|] == records;
      records := filtered;
    }
    if records != [] {
      r := Success(records[|records| - 1]);
    } else {
      r := Failure(NotFound(query));
    }
  }

  /** A produced wheel, known to the installer by its file name. */
  datatype Wheel = Wheel(filename: string)

  /** One entry of the seen map, in insertion order: a reference and its wheel, or None. */
  datatype SeenEntry = SeenEntry(ref: string, wheel: Option<Wheel>)

  /** `[w.filename for w in wheels.values() if w is not None]`. */
  function CompletedFilenames(seen: seq<SeenEntry>): (r: seq<string>)
    ensures |r| <= |seen|
  {
    if seen == [] then []
    else (if seen[0].wheel.Some? then [seen[0].wheel.value.filename] else []) + CompletedFilenames(seen[1..])
  }

  /** Python's `reversed` on a list. */
  function Reversed<T>(s: seq<T>): (r: seq<T>)
    ensures |r| == |s|
    ensures s != [] ==> r[0] == s[|s| - 1] && r[|r| - 1] == s[0]
  {
    if s == [] then [] else Reversed(s[1..]) + [s[0]]
  }

  lemma {:induction false} ReversedAppend<T>(a: seq<T>, b: seq<T>)
    ensures Reversed(a + b) == Reversed(b) + Reversed(a)
  {
    if a == [] {
      assert a + b == b;
    } else {
      assert (a + b)[1..] == a[1..] + b;
      ReversedAppend(a[1..], b);
    }
  }

  /** The wheel file names the tree fixture passes to `pip install`, in that order. */
  function InstallOrder(seen: seq<SeenEntry>): (r: seq<string>)
  {
    Reversed(CompletedFilenames(seen))
  }

  /** `idx` gives, for each installed name, the seen entry it comes from; later entries come first. */
  predicate LatestFirst(idx: seq<nat>, names: seq<string>, seen: seq<SeenEntry>) {
    && |idx| == |names|
    && (forall k :: 0 <= k < |idx| ==>
          idx[k] < |seen| && seen[idx[k]].wheel == Some(Wheel(names[k])))
    && (forall k, l :: 0 <= k < l < |idx| ==> idx[k] > idx[l])
  }

  /** The positions of the seen map that hold a wheel, latest first. */
  function WheelPositions(seen: seq<SeenEntry>): seq<nat>
  {
    if seen == [] then []
    else Shifted(WheelPositions(seen[1..])) + (if seen[0].wheel.Some? then [0] else [])
  }

  /** Exactly the positions that hold a wheel. */
  predicate AllWheels(idx: seq<nat>, seen: seq<SeenEntry>) {
    forall j :: 0 <= j < |seen| ==> (j in idx <==> seen[j].wheel.Some?)
  }

  /**
   * The install list names the wheel of every entry that is not None, once
   * each, most recently inserted first; entries that are None are skipped.
   */
  lemma {:induction false} InstallOrderLatestFirst(seen: seq<SeenEntry>)
    ensures LatestFirst(WheelPositions(seen), InstallOrder(seen), seen)
    ensures AllWheels(WheelPositions(seen), seen)
  {
    if seen != [] {
      InstallOrderLatestFirst(seen[1..]);
      InstallOrderStep(seen);
    }
  }

  /** The inductive step of `InstallOrderLatestFirst`. */
  lemma InstallOrderStep(seen: seq<SeenEntry>)
    requires seen != []
    requires LatestFirst(WheelPositions(seen[1..]), InstallOrder(seen[1..]), seen[1..])
    requires AllWheels(WheelPositions(seen[1..]), seen[1..])
    ensures LatestFirst(WheelPositions(seen), InstallOrder(seen), seen)
    ensures AllWheels(WheelPositions(seen), seen)
  {
    var tail := seen[1..];
    var idx0 := WheelPositions(tail);
    var shifted := Shifted(idx0);
    InstallOrderCons(seen);
    LatestFirstShift(idx0, InstallOrder(tail), seen);
    if seen[0].wheel.Some? {
      LatestFirstOldestLast(shifted, InstallOrder(tail), seen);
    }
    PositionsShift(idx0, seen);
  }

  /** The install list of a seen map is that of its tail followed by the first entry's wheel, if any. */
  lemma InstallOrderCons(seen: seq<SeenEntry>)
    requires seen != []
    ensures InstallOrder(seen) ==
      InstallOrder(seen[1..]) + (if seen[0].wheel.Some? then [seen[0].wheel.value.filename] else [])
  {
    var head := if seen[0].wheel.Some? then [seen[0].wheel.value.filename] else [];
    ReversedAppend(head, CompletedFilenames(seen[1..]));
    if head != [] {
      assert Reversed(head) == Reversed(head[1..]) + [head[0]];
    }
  }

  /** The positions holding a wheel, after an entry is put in front. */
  lemma PositionsShift(idx: seq<nat>, seen: seq<SeenEntry>)
    requires seen != [] && AllWheels(idx, seen[1..])
    ensures AllWheels(if seen[0].wheel.Some? then Shifted(idx) + [0] else Shifted(idx), seen)
  {
    var idx' := if seen[0].wheel.Some? then Shifted(idx) + [0] else Shifted(idx);
    forall j | 0 <= j < |seen| ensures j in idx' <==> seen[j].wheel.Some? {
      ShiftedMembers(idx, j);
      if j > 0 {
        assert seen[j] == seen[1..][j - 1];
      }
    }
  }

  /** Every position one further on. */
  function Shifted(idx: seq<nat>): (r: seq<nat>)
    ensures |r| == |idx| && forall k :: 0 <= k < |idx| ==> r[k] == idx[k] + 1
  {
    if idx == [] then [] else [idx[0] + 1] + Shifted(idx[1..])
  }

  lemma ShiftedMembers(idx: seq<nat>, j: int)
    ensures j in Shifted(idx) <==> j > 0 && j - 1 in idx
  {
    if j in Shifted(idx) {
      var k :| 0 <= k < |idx| && Shifted(idx)[k] == j;
      assert idx[k] == j - 1;
    }
    if j > 0 && j - 1 in idx {
      var k :| 0 <= k < |idx| && idx[k] == j - 1;
      assert Shifted(idx)[k] == j;
    }
  }

  /** Putting an entry in front of the seen map moves every tail position one further on. */
  lemma LatestFirstShift(idx: seq<nat>, names: seq<string>, seen: seq<SeenEntry>)
    requires |seen| > 0 && LatestFirst(idx, names, seen[1..])
    ensures LatestFirst(Shifted(idx), names, seen)
  {
    var sh := Shifted(idx);
    forall k | 0 <= k < |sh|
      ensures sh[k] < |seen| && seen[sh[k]].wheel == Some(Wheel(names[k]))
    {
      assert seen[idx[k] + 1] == seen[1..][idx[k]];
    }
  }

  /** The wheel of the first-inserted entry goes to the end of the install list. */
  lemma LatestFirstOldestLast(idx: seq<nat>, names: seq<string>, seen: seq<SeenEntry>)
    requires |seen| > 0 && seen[0].wheel.Some? && LatestFirst(idx, names, seen)
    requires forall k :: 0 <= k < |idx| ==> idx[k] > 0
    ensures LatestFirst(idx + [0], names + [seen[0].wheel.value.filename], seen)
  {
    var idx', names' := idx + [0], names + [seen[0].wheel.value.filename];
    forall k | 0 <= k < |idx'|
      ensures idx'[k] < |seen| && seen[idx'[k]].wheel == Some(Wheel(names'[k]))
    {
      if k < |idx| {
        assert idx'[k] == idx[k] && names'[k] == names[k];
      }
    }
  }

  /** `" ".join(names)`. */
  function Join(names: seq<string>): (r: string)
    ensures names != [] ==> StartsWith(r, names[0])
    ensures |names| > 1 ==> ' ' in r
    ensures names == [] ==> r == ""
  {
    if names == [] then ""
    else if |names| == 1 then names[0]
    else names[0] + " " + Join(names[1..])
  }

  /** The words of a command line split at spaces, runs of spaces counting as one. */
  function Words(s: string): (r: seq<string>)
    ensures forall k :: 0 <= k < |r| ==> r[k] != [] && ' ' !in r[k]
    decreases |s|
  {
    if s == [] then []
    else if s[0] == ' ' then Words(s[1..])
    else
      var i := IndexOf(s, ' ');
      [s[..i]] + (if i == |s| then [] else Words(s[i + 1..]))
  }

  /** A word followed by a space and more text splits into that word and the words of the rest. */
  lemma WordsOfPrefixed(w: string, rest: string)
    requires w != [] && ' ' !in w
    ensures Words(w + " " + rest) == [w] + Words(rest)
    ensures Words(w) == [w]
  {
    var s := w + " " + rest;
    var i := IndexOf(s, ' ');
    assert s[|w|] == ' ';
    assert forall j :: 0 <= j < |w| ==> s[j] == w[j];
    assert i == |w|;
    assert s[..i] == w && s[i + 1..] == rest;
    assert IndexOf(w, ' ') == |w|;
    assert w[..|w|] == w;
  }

  /**
   * Joining file names that are non-empty and contain no space, then splitting
   * the command line at spaces, gives back exactly the same names in order:
   * the installer receives each wheel as one argument.
   */
  lemma {:induction false} WordsOfJoin(names: seq<string>)
    requires forall k :: 0 <= k < |names| ==> names[k] != [] && ' ' !in names[k]
    ensures Words(Join(names)) == names
  {
    if |names| == 1 {
      WordsOfPrefixed(names[0], "");
    } else if |names| > 1 {
      WordsOfPrefixed(names[0], Join(names[1..]));
      WordsOfJoin(names[1..]);
    }
  }
}
