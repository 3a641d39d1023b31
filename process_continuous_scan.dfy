/**
 * processing/process_continuous_scan.py: `compile_data_to_array`, which turns the recordings of a
 * continuous scan (one capture per strip, its coordinates in the file name) into an image with one
 * row per strip.
 */
module ContinuousScan {
  import opened Results
  import opened Text
  import opened Grid
  import opened Sorting

  /** A pickled capture: one row of `bins` frequency-bin values per record of the strip. */
  datatype Capture = Capture(bins: nat, data: seq<seq<real>>)

  /** The capture is a two-dimensional array: every row has `bins` values. */
  predicate Rectangular(c: Capture) {
    forall i :: 0 <= i < |c.data| ==> |c.data[i]| == c.bins
  }

  /** `np.interp(x, xp, fp)`: the values of the interpolation are not modelled. */
  type Interpolant = (real, seq<real>, seq<real>) -> real

  /** `float(text)`: None when the text is not a number. */
  type Parser = string -> Option<real>

  datatype CompileError =
    | EmptyReduction          // `max` over an empty bin range
    | NotANumber              // a name part `float` rejects
    | WrongPartCount(n: nat)  // a name that does not split into exactly three parts
    | NoDataFound             // no file at all
    | EmptyStrip              // `np.interp` over a strip with no records

  /** The strip a file records: its x range and its y. */
  datatype Coords = Coords(xmin: real, xmax: real, y: real)

  /** One element of `data`: the coordinates and the amplitude of each record. */
  datatype Entry = Entry(xmin: real, xmax: real, y: real, amps: seq<real>)

  /** A Python slice bound `i` on a sequence of length `n`: negatives count from the end, then clamp. */
  function SliceBound(i: int, n: nat): (b: nat)
    ensures b <= n
    ensures 0 <= i <= n ==> b == i
    ensures -(n as int) <= i < 0 ==> b == n + i
  {
    if i < 0 then (if i + n < 0 then 0 else i + n) else if i > n then n else i
  }

  /** The bins `[start:end]` selects out of `n`, as the half-open range `lo..hi`. */
  function Window(start: int, end: int, n: nat): (w: (nat, nat))
    ensures w.0 <= w.1 <= n
    ensures 0 <= start <= end <= n ==> w == (start, end)
  {
    var lo := SliceBound(start, n);
    var hi := SliceBound(end, n);
    (lo, if hi < lo then lo else hi)
  }

  /** The largest value of a non-empty row. */
  function RowMax(s: seq<real>): (m: real)
    requires |s| > 0
    ensures m in s
    ensures forall i :: 0 <= i < |s| ==> s[i] <= m
  {
    if |s| == 1 then s[0]
    else
      var m := RowMax(s[..|s| - 1]);
      if s[|s| - 1] > m then s[|s| - 1] else m
  }

  /** `fft_data[:, lo:hi].max(axis=1)`: the largest value of each row within the bin range. */
  function Amplitudes(c: Capture, lo: nat, hi: nat): (amps: seq<real>)
    requires Rectangular(c) && lo < hi <= c.bins
    ensures |amps| == |c.data|
    ensures forall i, j :: 0 <= i < |c.data| && lo <= j < hi ==> c.data[i][j] <= amps[i]
    ensures forall i :: 0 <= i < |c.data| ==> amps[i] in c.data[i][lo..hi]
  {
    var amps := seq(|c.data|, i requires 0 <= i < |c.data| => RowMax(c.data[i][lo..hi]));
    assert forall i, j :: 0 <= i < |c.data| && lo <= j < hi ==> c.data[i][j] == c.data[i][lo..hi][j - lo];
    amps
  }

  /** The strip name of a path: its basename without ".pkl" and "continuous_". */
  function StripName(path: string): string {
    Remove(Remove(Basename(path), ".pkl"), "continuous_")
  }

  /** Every part of the name is a number. */
  predicate AllNumbers(parts: seq<string>, parse: Parser) {
    forall i :: 0 <= i < |parts| ==> parse(parts[i]).Some?
  }

  /**
   * The coordinates a file name carries: the strip name split at '_', every part read as a number,
   * and exactly three parts unpacked as xmin, xmax and y.
   */
  function DecodeName(path: string, parse: Parser): (r: Result<Coords, CompileError>)
    ensures var parts := Split(StripName(path), '_');
            && (r.Success? <==> AllNumbers(parts, parse) && |parts| == 3)
            && (r.Success? ==> r.value == Coords(parse(parts[0]).value, parse(parts[1]).value, parse(parts[2]).value))
            && (r.Failure? && AllNumbers(parts, parse) ==> r.error == WrongPartCount(|parts|))
            && (r.Failure? && !AllNumbers(parts, parse) ==> r.error == NotANumber)
  {
    var parts := Split(StripName(path), '_');
    if !AllNumbers(parts, parse) then Failure(NotANumber)
    else if |parts| != 3 then Failure(WrongPartCount(|parts|))
    else Success(Coords(parse(parts[0]).value, parse(parts[1]).value, parse(parts[2]).value))
  }

  /** The text of a number as the scanner writes it into a file name. */
  predicate NumberText(t: string) {
    '_' !in t && '/' !in t && 'p' !in t && 'c' !in t
  }

  /**
   * A file the scanner saved as `<dir>/continuous_<xmin>_<xmax>_<y>.pkl` decodes to those three
   * numbers.
   */
  lemma DecodeSavedName(dir: string, a: string, b: string, c: string, parse: Parser)
    requires NumberText(a) && NumberText(b) && NumberText(c)
    requires parse(a).Some? && parse(b).Some? && parse(c).Some?
    ensures DecodeName(dir + "/" + ("continuous_" + a + "_" + b + "_" + c + ".pkl"), parse)
            == Success(Coords(parse(a).value, parse(b).value, parse(c).value))
  {
    var body := a + "_" + b + "_" + c;
    assert "continuous_" + a + "_" + b + "_" + c + ".pkl" == "continuous_" + body + ".pkl";
    StripSaved(dir, body);
    JoinThree(a, b, c);
    SplitJoin([a, b, c], '_');
  }

  /** The strip name of `<dir>/continuous_<body>.pkl` is `body`, for a body the removals cannot touch. */
  lemma StripSaved(dir: string, body: string)
    requires '/' !in body && 'p' !in body && 'c' !in body
    ensures StripName(dir + "/" + ("continuous_" + body + ".pkl")) == body
  {
    var name := "continuous_" + body + ".pkl";
    assert '/' !in name;
    BasenameAfterSlash(dir, name);
    assert 'p' !in "continuous_" + body;
    RemoveTrailing("continuous_" + body, ".pkl");
    RemoveLeading(body, "continuous_");
    RemoveAbsent(body, "continuous_");
  }

  /** Three parts joined with '_'. */
  lemma JoinThree(a: string, b: string, c: string)
    ensures a + "_" + b + "_" + c == Join([a, b, c], '_')
  {
    assert Join([c], '_') == c;
    assert [a, b, c][1..] == [b, c];
    assert [b, c][1..] == [c];
  }

  /** The loop state of `compile_data_to_array`: `data` and the two sample bounds. */
  datatype Gathered = Gathered(data: seq<Entry>, sampleStart: Option<int>, sampleEnd: Option<int>)

  /**
   * One pass of the loop: default the bounds (a falsy start becomes 0, a falsy end the capture's
   * bin count), reduce each record to its largest amplitude in the range, then decode the name.
   */
  function Ingest(g: Gathered, path: string, c: Capture, parse: Parser): (r: Result<Gathered, CompileError>)
    requires Rectangular(c)
    ensures r.Success? ==> |r.value.data| == |g.data| + 1 && r.value.data[..|g.data|] == g.data
  {
    var ss := if Truthy(g.sampleStart) then g.sampleStart else Some(0);
    var se := if Truthy(g.sampleEnd) then g.sampleEnd else Some(c.bins);
    var w := Window(ss.value, se.value, c.bins);
    if w.0 == w.1 then Failure(EmptyReduction)
    else
      var amps := Amplitudes(c, w.0, w.1);
      var co := DecodeName(path, parse);
      if co.Failure? then Failure(co.error)
      else
        assert (g.data + [Entry(co.value.xmin, co.value.xmax, co.value.y, amps)])[..|g.data|] == g.data;
        Success(Gathered(g.data + [Entry(co.value.xmin, co.value.xmax, co.value.y, amps)], ss, se))
  }

  /** The loop over the files in order, stopping at the first error. */
  function Gather(names: seq<string>, load: string -> Capture, parse: Parser,
                  sampleStart: Option<int>, sampleEnd: Option<int>): (r: Result<Gathered, CompileError>)
    requires forall p :: Rectangular(load(p))
    ensures r.Success? ==> |r.value.data| == |names|
    decreases |names|
  {
    if |names| == 0 then Success(Gathered([], sampleStart, sampleEnd))
    else
      var g := Gather(names[..|names| - 1], load, parse, sampleStart, sampleEnd);
      if g.Failure? then g
      else Ingest(g.value, names[|names| - 1], load(names[|names| - 1]), parse)
  }

  /** The loop over the first `k + 1` files is the loop over `k` files and one more pass. */
  lemma GatherNext(names: seq<string>, k: nat, load: string -> Capture, parse: Parser,
                   sampleStart: Option<int>, sampleEnd: Option<int>)
    requires forall p :: Rectangular(load(p))
    requires k < |names|
    ensures var g := Gather(names[..k], load, parse, sampleStart, sampleEnd);
            Gather(names[..k + 1], load, parse, sampleStart, sampleEnd)
            == if g.Failure? then g else Ingest(g.value, names[k], load(names[k]), parse)
  {
    assert names[..k + 1][..k] == names[..k];
  }

  /** An error stops the loop: the files after it are never read. */
  lemma {:induction false} GatherStops(names: seq<string>, j: nat, load: string -> Capture, parse: Parser,
                                      sampleStart: Option<int>, sampleEnd: Option<int>)
    requires forall p :: Rectangular(load(p))
    requires j <= |names|
    ensures var g := Gather(names[..j], load, parse, sampleStart, sampleEnd);
            g.Failure? ==> Gather(names, load, parse, sampleStart, sampleEnd) == g
    decreases |names| - j
  {
    if j < |names| {
      var g := Gather(names[..j], load, parse, sampleStart, sampleEnd);
      if g.Failure? {
        assert names[..j + 1][..j] == names[..j];
        GatherStops(names, j + 1, load, parse, sampleStart, sampleEnd);
      }
    } else {
      assert names[..j] == names;
    }
  }

  /** Tuples compared as Python compares them, on the first three fields: xmin, then xmax, then y. */
  predicate EntryLe(a: Entry, b: Entry) {
    a.xmin < b.xmin || (a.xmin == b.xmin && (a.xmax < b.xmax || (a.xmax == b.xmax && a.y <= b.y)))
  }

  lemma EntryLeTotalPreorder()
    ensures TotalPreorder(EntryLe)
  {
  }

  lemma StrLeTotalPreorder()
    ensures TotalPreorder(StrLe)
  {
    forall a, b ensures StrLe(a, b) || StrLe(b, a) {
      StrLeTotal(a, b);
    }
    forall a, b, c | StrLe(a, b) && StrLe(b, c) ensures StrLe(a, c) {
      StrLeTrans(a, b, c);
    }
  }

  /** `np.median` of the strip lengths, as the whole number `linspace` takes it for. */
  function MedianLen(lens: seq<nat>): (m: nat)
    requires |lens| > 0
  {
    var s := SortBy(lens, NatLe);
    var n := |s|;
    if n % 2 == 1 then s[n / 2] else (s[n / 2 - 1] + s[n / 2]) / 2
  }

  predicate NatLe(a: nat, b: nat) {
    a <= b
  }

  /** The median lies between the shortest and the longest strip. */
  lemma MedianBounds(lens: seq<nat>)
    requires |lens| > 0
    ensures exists i :: 0 <= i < |lens| && lens[i] <= MedianLen(lens)
    ensures exists i :: 0 <= i < |lens| && MedianLen(lens) <= lens[i]
    ensures forall i :: 0 <= i < |lens| && (forall j :: 0 <= j < |lens| ==> lens[i] <= lens[j]) ==> lens[i] <= MedianLen(lens)
  {
    var s := SortBy(lens, NatLe);
    assert TotalPreorder(NatLe);
    SortBySorted(lens, NatLe);
    var n := |s|;
    assert s[0] <= MedianLen(lens) <= s[n - 1];
    assert s[0] in multiset(lens) && s[n - 1] in multiset(lens);
    var lo :| 0 <= lo < |lens| && lens[lo] == s[0];
    var hi :| 0 <= hi < |lens| && lens[hi] == s[n - 1];
    forall i | 0 <= i < |lens| && (forall j :: 0 <= j < |lens| ==> lens[i] <= lens[j])
      ensures lens[i] <= MedianLen(lens)
    {
      assert lens[i] <= lens[lo];
    }
  }

  /** The strip lengths. */
  function Lengths(data: seq<Entry>): (lens: seq<nat>)
    ensures |lens| == |data|
    ensures forall i :: 0 <= i < |data| ==> lens[i] == |data[i].amps|
  {
    seq(|data|, i requires 0 <= i < |data| => |data[i].amps|)
  }

  /** `np.interp(np.linspace(xmin, xmax, n), np.linspace(xmin, xmax, len(d)), d)`. */
  function Resize(d: seq<real>, xmin: real, xmax: real, n: nat, interp: Interpolant): (row: seq<real>)
    ensures |row| == n
  {
    var xs := Linspace(xmin, xmax, n);
    var xp := Linspace(xmin, xmax, |d|);
    seq(n, j requires 0 <= j < n => interp(xs[j], xp, d))
  }

  /**
   * What `compile_data_to_array` computes: the files in name order, gathered, sorted; no files is
   * an error; each strip resized to the median length between the x range of the last file read.
   */
  function Compile(paths: seq<string>, load: string -> Capture, parse: Parser, interp: Interpolant,
                   sampleStart: Option<int>, sampleEnd: Option<int>): (r: Result<seq<seq<real>>, CompileError>)
    requires forall p :: Rectangular(load(p))
  {
    var g := Gather(SortBy(paths, StrLe), load, parse, sampleStart, sampleEnd);
    if g.Failure? then Failure(g.error)
    else
      var data := SortBy(g.value.data, EntryLe);
      if |data| == 0 then Failure(NoDataFound)
      else
        var last := g.value.data[|g.value.data| - 1];
        Resized(data, last.xmin, last.xmax, interp)
  }

  /** The image: every strip resampled to the median strip length over the x range `xmin..xmax`. */
  function Resized(data: seq<Entry>, xmin: real, xmax: real, interp: Interpolant): (r: Result<seq<seq<real>>, CompileError>)
    requires |data| > 0
    ensures r.Failure? <==> exists i :: 0 <= i < |data| && |data[i].amps| == 0
    ensures r.Failure? ==> r.error == EmptyStrip
    ensures r.Success? ==> |r.value| == |data|
    ensures r.Success? ==> forall i :: 0 <= i < |data| ==> |r.value[i]| == MedianLen(Lengths(data))
  {
    var n := MedianLen(Lengths(data));
    if exists i :: 0 <= i < |data| && |data[i].amps| == 0 then Failure(EmptyStrip)
    else Success(seq(|data|, i requires 0 <= i < |data| => Resize(data[i].amps, xmin, xmax, n, interp)))
  }

  /**
   * `compile_data_to_array(data_dir, sample_start, sample_end)`, over the paths the glob found:
   * read the files in name order, sort the entries, and resize every strip.
   */
  method CompileDataToArray(paths: seq<string>, load: string -> Capture, parse: Parser, interp: Interpolant,
                            sampleStart: Option<int>, sampleEnd: Option<int>)
    returns (r: Result<seq<seq<real>>, CompileError>)
    requires forall p :: Rectangular(load(p))
    ensures r == Compile(paths, load, parse, interp, sampleStart, sampleEnd)
  {
    var fnames := SortBy(paths, StrLe);
    var gathered, xMin, xMax := ReadFiles(fnames, load, parse, sampleStart, sampleEnd);
    if gathered.Failure? {
      return Failure(gathered.error);
    }
    var data := SortBy(gathered.value.data, EntryLe);
    if |data| == 0 {
      return Failure(NoDataFound);
    }
    ghost var read := gathered.value.data;
    assert |read| == |data| > 0;
    assert xMin.value == read[|read| - 1].xmin && xMax.value == read[|read| - 1].xmax;
    r := Resized(data, xMin.value, xMax.value, interp);
  }

  /**
   * The loop of `compile_data_to_array`: one entry appended per file, the sample bounds defaulted,
   * and `XMIN` and `XMAX` reassigned to each file's x range in turn.
   */
  method ReadFiles(fnames: seq<string>, load: string -> Capture, parse: Parser,
                   sampleStart: Option<int>, sampleEnd: Option<int>)
    returns (r: Result<Gathered, CompileError>, xMin: Option<real>, xMax: Option<real>)
    requires forall p :: Rectangular(load(p))
    ensures r == Gather(fnames, load, parse, sampleStart, sampleEnd)
    ensures r.Success? ==> var data := r.value.data;
                           && xMin == (if |data| == 0 then None else Some(data[|data| - 1].xmin))
                           && xMax == (if |data| == 0 then None else Some(data[|data| - 1].xmax))
  {
    var data: seq<Entry> := [];
    xMin := None;
    xMax := None;
    var start := sampleStart;
    var end := sampleEnd;
    var k := 0;
    while k < |fnames|
      invariant 0 <= k <= |fnames|
      invariant Gather(fnames[..k], load, parse, sampleStart, sampleEnd) == Success(Gathered(data, start, end))
      invariant xMin == (if |data| == 0 then None else Some(data[|data| - 1].xmin))
      invariant xMax == (if |data| == 0 then None else Some(data[|data| - 1].xmax))
    {
      GatherNext(fnames, k, load, parse, sampleStart, sampleEnd);
      var step := ReadFile(Gathered(data, start, end), fnames[k], load(fnames[k]), parse);
      if step.Failure? {
        GatherStops(fnames, k + 1, load, parse, sampleStart, sampleEnd);
        return Failure(step.error), xMin, xMax;
      }
      data, start, end := step.value.data, step.value.sampleStart, step.value.sampleEnd;
      xMin := Some(data[|data| - 1].xmin);
      xMax := Some(data[|data| - 1].xmax);
      k := k + 1;
    }
    assert fnames[..k] == fnames;
    r := Success(Gathered(data, start, end));
  }

  /** The body of that loop for one file, computing what `Ingest` describes. */
  method ReadFile(g: Gathered, path: string, fftData: Capture, parse: Parser) returns (r: Result<Gathered, CompileError>)
    requires Rectangular(fftData)
    ensures r == Ingest(g, path, fftData, parse)
  {
    var start, end := g.sampleStart, g.sampleEnd;
    var nFreqBins := fftData.bins;
    if !Truthy(start) {
      start := Some(0);
    }
    if !Truthy(end) {
      end := Some(nFreqBins);
    }
    var w := Window(start.value, end.value, nFreqBins);
    if w.0 == w.1 {
      return Failure(EmptyReduction);
    }
    var amplitudes := Amplitudes(fftData, w.0, w.1);
    var coords := DecodeName(path, parse);
    if coords.Failure? {
      return Failure(coords.error);
    }
    r := Success(Gathered(g.data + [Entry(coords.value.xmin, coords.value.xmax, coords.value.y, amplitudes)], start, end));
  }

  /** No files is the "No Data Found" error, and it is the only way to get it. */
  lemma NoDataIffNoFiles(paths: seq<string>, load: string -> Capture, parse: Parser, interp: Interpolant,
                         sampleStart: Option<int>, sampleEnd: Option<int>)
    requires forall p :: Rectangular(load(p))
    ensures Compile(paths, load, parse, interp, sampleStart, sampleEnd) == Failure(NoDataFound) <==> |paths| == 0
  {
    var names := SortBy(paths, StrLe);
    var g := Gather(names, load, parse, sampleStart, sampleEnd);
    if g.Success? {
      assert |SortBy(g.value.data, EntryLe)| == |paths|;
    } else {
      GatherError(names, load, parse, sampleStart, sampleEnd);
    }
  }

  /** Gathering never fails with "No Data Found": that error comes only after the loop. */
  lemma {:induction false} GatherError(names: seq<string>, load: string -> Capture, parse: Parser,
                                      sampleStart: Option<int>, sampleEnd: Option<int>)
    requires forall p :: Rectangular(load(p))
    ensures var g := Gather(names, load, parse, sampleStart, sampleEnd);
            g.Failure? ==> g.error != NoDataFound && |names| > 0
    decreases |names|
  {
    if |names| > 0 {
      GatherError(names[..|names| - 1], load, parse, sampleStart, sampleEnd);
    }
  }

  /**
   * A compiled image has one row per file, and every row is as long as the median strip; the rows
   * follow the entries sorted by (xmin, xmax, y), which are the gathered entries reordered.
   */
  lemma CompileShape(paths: seq<string>, load: string -> Capture, parse: Parser, interp: Interpolant,
                     sampleStart: Option<int>, sampleEnd: Option<int>)
    requires forall p :: Rectangular(load(p))
    ensures var r := Compile(paths, load, parse, interp, sampleStart, sampleEnd);
            var g := Gather(SortBy(paths, StrLe), load, parse, sampleStart, sampleEnd);
            r.Success? ==>
              && g.Success?
              && |r.value| == |paths|
              && var data := SortBy(g.value.data, EntryLe);
              && Sorted(data, EntryLe)
              && multiset(data) == multiset(g.value.data)
              && (forall i :: 0 <= i < |paths| ==> |r.value[i]| == MedianLen(Lengths(data)))
  {
    var g := Gather(SortBy(paths, StrLe), load, parse, sampleStart, sampleEnd);
    if g.Success? {
      EntryLeTotalPreorder();
      SortBySorted(g.value.data, EntryLe);
    }
  }

  /** The files are read in name order. */
  lemma NamesSorted(paths: seq<string>)
    ensures Sorted(SortBy(paths, StrLe), StrLe)
    ensures multiset(SortBy(paths, StrLe)) == multiset(paths)
  {
    StrLeTotalPreorder();
    SortBySorted(paths, StrLe);
  }

  /**
   * `sample_end` defaults to the first capture's bin count and keeps it: after any number of
   * files, the end bound is the first file's bin count (when that is not zero).
   */
  lemma {:induction false} SampleEndPersists(names: seq<string>, load: string -> Capture, parse: Parser,
                                            sampleStart: Option<int>, sampleEnd: Option<int>)
    requires forall p :: Rectangular(load(p))
    requires |names| > 0 && !Truthy(sampleEnd) && load(names[0]).bins > 0
    ensures var g := Gather(names, load, parse, sampleStart, sampleEnd);
            g.Success? ==> g.value.sampleEnd == Some(load(names[0]).bins)
    decreases |names|
  {
    if |names| > 1 {
      var front := names[..|names| - 1];
      assert front[0] == names[0];
      SampleEndPersists(front, load, parse, sampleStart, sampleEnd);
    }
  }

  /** `sample_start` defaults to 0 after the first file. */
  lemma {:induction false} SampleStartDefault(names: seq<string>, load: string -> Capture, parse: Parser,
                                             sampleStart: Option<int>, sampleEnd: Option<int>)
    requires forall p :: Rectangular(load(p))
    requires |names| > 0 && !Truthy(sampleStart)
    ensures var g := Gather(names, load, parse, sampleStart, sampleEnd);
            g.Success? ==> g.value.sampleStart == Some(0)
    decreases |names|
  {
    if |names| > 1 {
      SampleStartDefault(names[..|names| - 1], load, parse, sampleStart, sampleEnd);
    }
  }

  /**
   * Entry `k` of the gathered data comes from file `k`: its coordinates are those of the file's
   * name, and it has one amplitude per record of that capture.
   */
  lemma {:induction false} GatherEntry(names: seq<string>, load: string -> Capture, parse: Parser,
                                      sampleStart: Option<int>, sampleEnd: Option<int>, k: nat)
    requires forall p :: Rectangular(load(p))
    requires k < |names|
    ensures var g := Gather(names, load, parse, sampleStart, sampleEnd);
            g.Success? ==>
              var co := DecodeName(names[k], parse);
              && co.Success?
              && g.value.data[k].xmin == co.value.xmin
              && g.value.data[k].xmax == co.value.xmax
              && g.value.data[k].y == co.value.y
              && |g.value.data[k].amps| == |load(names[k]).data|
    decreases |names|
  {
    var front := names[..|names| - 1];
    var g := Gather(names, load, parse, sampleStart, sampleEnd);
    if g.Success? {
      var gf := Gather(front, load, parse, sampleStart, sampleEnd);
      if k < |names| - 1 {
        GatherEntry(front, load, parse, sampleStart, sampleEnd, k);
        assert front[k] == names[k];
        assert g.value.data[..|gf.value.data|] == gf.value.data;
        assert g.value.data[k] == gf.value.data[k];
      }
    }
  }
  /**
   * The bounds after the loop: a truthy bound is kept as given; otherwise the start is 0 and the end
   * is the first capture's bin count, which a successful read needs to be non-zero.
   */
  lemma {:induction false} GatherBounds(names: seq<string>, load: string -> Capture, parse: Parser,
                                       sampleStart: Option<int>, sampleEnd: Option<int>)
    requires forall p :: Rectangular(load(p))
    requires |names| > 0
    ensures var g := Gather(names, load, parse, sampleStart, sampleEnd);
            g.Success? ==>
              && g.value.sampleStart == (if Truthy(sampleStart) then sampleStart else Some(0))
              && g.value.sampleEnd == (if Truthy(sampleEnd) then sampleEnd else Some(load(names[0]).bins))
              && (!Truthy(sampleEnd) ==> load(names[0]).bins > 0)
    decreases |names|
  {
    if |names| > 1 {
      var front := names[..|names| - 1];
      assert front[0] == names[0];
      GatherBounds(front, load, parse, sampleStart, sampleEnd);
    }
  }

  /**
   * The amplitudes of entry `k` are the row maxima of file `k`'s capture over the bin window the
   * defaulted bounds give, and that window is not empty.
   */
  lemma {:induction false} GatherAmps(names: seq<string>, load: string -> Capture, parse: Parser,
                                     sampleStart: Option<int>, sampleEnd: Option<int>, k: nat)
    requires forall p :: Rectangular(load(p))
    requires k < |names|
    ensures var g := Gather(names, load, parse, sampleStart, sampleEnd);
            var w := Window(if Truthy(sampleStart) then sampleStart.value else 0,
                            if Truthy(sampleEnd) then sampleEnd.value else load(names[0]).bins,
                            load(names[k]).bins);
            g.Success? ==> w.0 < w.1 && g.value.data[k].amps == Amplitudes(load(names[k]), w.0, w.1)
    decreases |names|
  {
    if k < |names| - 1 {
      GatherAmpsFront(names, load, parse, sampleStart, sampleEnd, k);
    } else {
      GatherAmpsLast(names, load, parse, sampleStart, sampleEnd);
    }
  }

  /** An entry before the last is the one the loop over the earlier files gathered. */
  lemma {:induction false} GatherAmpsFront(names: seq<string>, load: string -> Capture, parse: Parser,
                                          sampleStart: Option<int>, sampleEnd: Option<int>, k: nat)
    requires forall p :: Rectangular(load(p))
    requires k < |names| - 1
    ensures var g := Gather(names, load, parse, sampleStart, sampleEnd);
            var w := Window(if Truthy(sampleStart) then sampleStart.value else 0,
                            if Truthy(sampleEnd) then sampleEnd.value else load(names[0]).bins,
                            load(names[k]).bins);
            g.Success? ==> w.0 < w.1 && g.value.data[k].amps == Amplitudes(load(names[k]), w.0, w.1)
    decreases |names|, 0
  {
    var front := names[..|names| - 1];
    var g := Gather(names, load, parse, sampleStart, sampleEnd);
    if g.Success? {
      var gf := Gather(front, load, parse, sampleStart, sampleEnd);
      GatherAmps(front, load, parse, sampleStart, sampleEnd, k);
      assert front[k] == names[k] && front[0] == names[0];
      assert g.value.data[..|gf.value.data|] == gf.value.data;
      assert g.value.data[k] == gf.value.data[k];
    }
  }

  /** The last entry is the one the last pass adds, over the bounds the earlier files left. */
  lemma GatherAmpsLast(names: seq<string>, load: string -> Capture, parse: Parser,
                       sampleStart: Option<int>, sampleEnd: Option<int>)
    requires forall p :: Rectangular(load(p))
    requires |names| > 0
    ensures var g := Gather(names, load, parse, sampleStart, sampleEnd);
            var k := |names| - 1;
            var w := Window(if Truthy(sampleStart) then sampleStart.value else 0,
                            if Truthy(sampleEnd) then sampleEnd.value else load(names[0]).bins,
                            load(names[k]).bins);
            g.Success? ==> w.0 < w.1 && g.value.data[k].amps == Amplitudes(load(names[k]), w.0, w.1)
  {
    var front := names[..|names| - 1];
    var gf := Gather(front, load, parse, sampleStart, sampleEnd);
    if gf.Success? {
      var c := load(names[|names| - 1]);
      IngestAmps(gf.value, names[|names| - 1], c, parse);
      if |names| > 1 {
        GatherBounds(front, load, parse, sampleStart, sampleEnd);
        assert front[0] == names[0];
      }
    }
  }

  /** One pass reduces the capture over the window its defaulted bounds give. */
  lemma IngestAmps(g: Gathered, path: string, c: Capture, parse: Parser)
    requires Rectangular(c)
    ensures var r := Ingest(g, path, c, parse);
            var w := Window(if Truthy(g.sampleStart) then g.sampleStart.value else 0,
                            if Truthy(g.sampleEnd) then g.sampleEnd.value else c.bins, c.bins);
            r.Success? ==> w.0 < w.1 && r.value.data[|g.data|].amps == Amplitudes(c, w.0, w.1)
  {
  }
}
