/** The PK modelling process: `run` reads options and the data store, builds the
    worker's arguments and records what `finished` will need; `timeout` passes
    the latest queued progress on; `finished` publishes the reconstructed maps. */
module PkProcess {
  import opened Values
  import opened VoxelMask
  import SignalNorm
  import FitDispatch
  import ResultMaps

  // ------------------------------------------------------------ the store

  /** A data set: its shape and its samples as one row per spatial voxel, in
      row-major order of the spatial axes (a 4D set has `shape[3]` samples per row). */
  datatype Image = Image(shape: seq<nat>, rows: seq<seq<real>>)

  /** The data store's contents as `run` sees them: the main data set, the
      current ROI, the ROIs by name (integer label volumes, flattened) and
      the data set named `T10` (flattened), if there is one. */
  datatype Store = Store(main: Option<Image>, currentRoi: Option<seq<int>>,
                         rois: map<string, seq<int>>, t10: Option<seq<real>>)

  datatype RunError =
    | RoiNotFound
    | NoData
    | NotFourD
    | MissingT10
    | MissingOption(key: Key)
    | WrongType(key: Key)
    | ZeroSamplingInterval
    | MaskSizeMismatch
    | T10SizeMismatch
    | NonFinite

  // ------------------------------------------------------------- options

  /** Option names: the ones `run` reads, and any other. */
  datatype Key =
    | RoiKey | SuffixKey | R1 | R2 | Dt | Tinj | Tr | Te | Fa | VeThresh | Dose | ModelKey
    | Other(name: string)

  /** The name each option has in an options dictionary. */
  function KeyName(k: Key): string
  {
    match k
    case RoiKey => "roi"
    case SuffixKey => "suffix"
    case R1 => "r1"
    case R2 => "r2"
    case Dt => "dt"
    case Tinj => "tinj"
    case Tr => "tr"
    case Te => "te"
    case Fa => "fa"
    case VeThresh => "ve-thresh"
    case Dose => "dose"
    case ModelKey => "model"
    case Other(name) => name
  }

  type Options = map<Key, OptVal>

  /** `options.pop(key)` of a number. */
  function PopNum(opts: Options, key: Key): (r: Result<(real, Options), RunError>)
    ensures key !in opts ==> r == Err(MissingOption(key))
    ensures key in opts && opts[key].Num? ==> r == Ok((opts[key].x, opts - {key}))
    ensures key in opts && opts[key].Text? ==> r == Err(WrongType(key))
  {
    if key !in opts then Err(MissingOption(key))
    else if opts[key].Text? then Err(WrongType(key))
    else Ok((opts[key].x, opts - {key}))
  }

  /** The keys popped, in order, before `dose`. */
  const NumberKeys: seq<Key> := [R1, R2, Dt, Tinj, Tr, Te, Fa, VeThresh]

  function KeySet(keys: seq<Key>): set<Key>
  {
    set k | k in keys
  }

  /** Pops the numbers under `keys` in order. An error reports the options
      left when it was raised. */
  function PopAll(opts: Options, keys: seq<Key>): (r: Result<(seq<real>, Options), (RunError, Options)>)
    ensures r.Ok? ==> |r.value.0| == |keys|
    ensures r.Err? ==> r.error.0.MissingOption? || r.error.0.WrongType?
  {
    if keys == [] then Ok(([], opts))
    else
      match PopNum(opts, keys[0])
      case Err(e) => Err((e, opts))
      case Ok((x, rest)) =>
        match PopAll(rest, keys[1..])
        case Err(e) => Err(e)
        case Ok((xs, left)) => Ok(([x] + xs, left))
  }

  /** Popping distinct keys succeeds exactly when each holds a number; it then
      yields those numbers in order and removes exactly those keys. */
  lemma {:induction false} PopAllSpec(opts: Options, keys: seq<Key>)
    requires forall i, j :: 0 <= i < j < |keys| ==> keys[i] != keys[j]
    ensures PopAll(opts, keys).Ok? <==> forall i :: 0 <= i < |keys| ==> keys[i] in opts && opts[keys[i]].Num?
    ensures PopAll(opts, keys).Ok? ==>
      PopAll(opts, keys).value.1 == opts - KeySet(keys) &&
      forall i :: 0 <= i < |keys| ==> PopAll(opts, keys).value.0[i] == opts[keys[i]].x
  {
    if keys != [] {
      var rest := opts - {keys[0]};
      PopAllSpec(rest, keys[1..]);
      if PopAll(opts, keys).Ok? {
        assert PopNum(opts, keys[0]).Ok?;
        assert PopNum(opts, keys[0]) == Ok((opts[keys[0]].x, rest));
        assert PopAll(rest, keys[1..]).Ok?;
        var left := PopAll(rest, keys[1..]).value.1;
        assert PopAll(opts, keys).value.1 == left;
        assert left == rest - KeySet(keys[1..]);
        var want := opts - KeySet(keys);
        assert forall k :: k in keys <==> k == keys[0] || k in keys[1..];
        assert forall k :: k in left <==> k in want;
        assert forall k :: k in left ==> left[k] == want[k];
        assert left == want;
      }
    }
  }

  predicate HasNumber(opts: Options, k: Key)
  {
    k in opts && opts[k].Num?
  }

  /** All eight numeric options `run` pops before `dose` are given as numbers. */
  predicate NumbersGiven(opts: Options)
  {
    HasNumber(opts, R1) && HasNumber(opts, R2) && HasNumber(opts, Dt) && HasNumber(opts, Tinj) &&
    HasNumber(opts, Tr) && HasNumber(opts, Te) && HasNumber(opts, Fa) && HasNumber(opts, VeThresh)
  }

  /** Popping the numeric options succeeds exactly when all are given as
      numbers, and then yields them in order. */
  lemma PopNumbers(opts: Options)
    ensures PopAll(opts, NumberKeys).Ok? <==> NumbersGiven(opts)
    ensures PopAll(opts, NumberKeys).Ok? ==>
      PopAll(opts, NumberKeys).value ==
        ([opts[R1].x, opts[R2].x, opts[Dt].x, opts[Tinj].x, opts[Tr].x, opts[Te].x, opts[Fa].x, opts[VeThresh].x],
         opts - KeySet(NumberKeys))
  {
    var ks := NumberKeys;
    assert ks[0] == R1 && ks[1] == R2 && ks[2] == Dt && ks[3] == Tinj;
    assert ks[4] == Tr && ks[5] == Te && ks[6] == Fa && ks[7] == VeThresh;
    PopAllSpec(opts, ks);
    if NumbersGiven(opts) {
      assert forall i :: 0 <= i < |ks| ==> ks[i] in opts && opts[ks[i]].Num?;
      var xs := PopAll(opts, ks).value.0;
      assert xs[0] == opts[R1].x && xs[1] == opts[R2].x && xs[2] == opts[Dt].x && xs[3] == opts[Tinj].x;
      assert xs[4] == opts[Tr].x && xs[5] == opts[Te].x && xs[6] == opts[Fa].x && xs[7] == opts[VeThresh].x;
      assert xs == [opts[R1].x, opts[R2].x, opts[Dt].x, opts[Tinj].x, opts[Tr].x, opts[Te].x, opts[Fa].x, opts[VeThresh].x];
    }
  }

  /** The suffix added to every output name: empty, or `_` and the option. */
  function Suffix(option: string): (s: string)
    ensures s == "" <==> option == ""
    ensures s != "" ==> s[0] == '_' && s[1..] == option
  {
    if option == "" then "" else "_" + option
  }

  // ------------------------------------------------------------- log text

  function DigitChar(d: nat): (c: char)
    requires d < 10
    ensures '0' <= c <= '9' && c as int - '0' as int == d
  {
    ('0' as int + d) as char
  }

  /** The decimal digits of n, most significant first (Python's `%i`). */
  function Digits(n: nat): (s: string)
    ensures s != [] && forall i :: 0 <= i < |s| ==> '0' <= s[i] <= '9'
  {
    if n < 10 then [DigitChar(n)] else Digits(n / 10) + [DigitChar(n % 10)]
  }

  function ParseDigits(s: string): nat
    requires forall i :: 0 <= i < |s| ==> '0' <= s[i] <= '9'
  {
    if s == [] then 0 else ParseDigits(s[..|s| - 1]) * 10 + (s[|s| - 1] as int - '0' as int)
  }

  /** `%i` of any integer: a minus sign for negatives, then the digits. */
  function Decimal(i: int): (s: string)
    ensures s != []
  {
    if i < 0 then "-" + Digits(-i) else Digits(i)
  }

  function ParseDecimal(s: string): int
    requires s != []
    requires forall i :: 0 <= i < |s| ==> '0' <= s[i] <= '9' || (i == 0 && s[i] == '-')
  {
    if s[0] == '-' then -(ParseDigits(s[1..]) as int) else ParseDigits(s)
  }

  lemma {:induction false} DigitsRoundTrip(n: nat)
    ensures ParseDigits(Digits(n)) == n
  {
    var s := Digits(n);
    if n < 10 {
      assert s[..0] == [];
    } else {
      assert s[..|s| - 1] == Digits(n / 10);
      DigitsRoundTrip(n / 10);
    }
  }

  /** The number in the log message reads back as the number of baseline points. */
  lemma DecimalRoundTrip(i: int)
    ensures ParseDecimal(Decimal(i)) == i
  {
    if i < 0 {
      assert Decimal(i)[1..] == Digits(-i);
      DigitsRoundTrip(-i);
    } else {
      DigitsRoundTrip(i);
    }
  }

  function BaselineMessage(points: int): string
  {
    "First " + Decimal(points) + " time points used for baseline normalisation\n"
  }

  // ------------------------------------------------------------ preparing

  /** The process's own record of the last run. */
  datatype Fields = Fields(log: string, suffix: string, thresh: real, mask: Option<seq<bool>>,
                           baseline: Option<seq<real>>, shape: seq<nat>)

  /** What `run` leaves behind: its record, the options it did not consume,
      and either the worker's arguments or the error it raised. */
  datatype Prepared = Prepared(fields: Fields, rest: Options,
                               outcome: Result<FitDispatch.WorkerArgs, RunError>)

  /** A voxel is selected where the ROI label is not zero. */
  function NonZero(roi: seq<int>): (mask: seq<bool>)
    ensures |mask| == |roi| && forall i :: 0 <= i < |roi| ==> (mask[i] <==> roi[i] != 0)
  {
    seq(|roi|, i requires 0 <= i < |roi| => roi[i] != 0)
  }

  /** The mask of selected voxels: the ROI's non-zero voxels, or all n voxels
      when there is no ROI. */
  function Selection(roi: Option<seq<int>>, n: nat): (mask: seq<bool>)
    ensures roi.Some? ==> mask == NonZero(roi.value)
    ensures roi.None? ==> mask == AllVoxels(n)
  {
    if roi.Some? then NonZero(roi.value) else AllVoxels(n)
  }

  /** The ROI named by the `roi` option, or the current one without it. */
  function SelectRoi(store: Store, opts: Options): (r: Result<Option<seq<int>>, RunError>)
    ensures RoiKey !in opts ==> r == Ok(store.currentRoi)
    ensures RoiKey in opts ==>
      (r.Ok? <==> opts[RoiKey].Text? && opts[RoiKey].s in store.rois) &&
      (r.Ok? ==> r.value == Some(store.rois[opts[RoiKey].s])) &&
      (r.Err? ==> r.error == RoiNotFound)
  {
    if RoiKey !in opts then Ok(store.currentRoi)
    else if opts[RoiKey].Text? && opts[RoiKey].s in store.rois then Ok(Some(store.rois[opts[RoiKey].s]))
    else Err(RoiNotFound)
  }

  /** Each voxel's baseline over the first `points` samples (absent for an
      empty window). */
  function Baselines(rows: seq<seq<real>>, points: int): (bs: seq<Option<real>>)
    ensures |bs| == |rows|
  {
    seq(|rows|, v requires 0 <= v < |rows| => SignalNorm.Baseline(rows[v], points))
  }

  /** A baseline the normalisation can divide by. */
  predicate Usable(b: Option<real>)
  {
    b.Some? && b.value + SignalNorm.Eps != 0.0
  }

  function Present(bs: seq<Option<real>>): (r: seq<real>)
    requires forall i :: 0 <= i < |bs| ==> bs[i].Some?
    ensures |r| == |bs|
  {
    seq(|bs|, i requires 0 <= i < |bs| => bs[i].value)
  }

  /** Each selected voxel's curve as enhancement over its baseline. */
  function Normalised(sel: seq<seq<real>>, b: seq<real>): (r: seq<seq<real>>)
    requires |sel| == |b| && forall i :: 0 <= i < |b| ==> b[i] + SignalNorm.Eps != 0.0
    ensures |r| == |sel|
  {
    seq(|sel|, i requires 0 <= i < |sel| => SignalNorm.EnhanceCurve(sel[i], b[i]))
  }

  /** Everything `run` does before handing the arguments to the worker, in its
      order: ROI, suffix, data checks and T10 here, then the numeric options
      (`PrepareOptions`) and the data itself (`PrepareData`). Fields are updated
      as the run goes, so an error leaves the updates made before it. */
  function Prepare(f0: Fields, store: Store, opts: Options): Prepared
  {
    var f := f0.(log := "");
    var o1 := opts - {RoiKey};
    match SelectRoi(store, opts)
    case Err(e) => Prepared(f, o1, Err(e))
    case Ok(roi) =>
      var o2 := o1 - {SuffixKey};
      var sfx := if SuffixKey in o1 then o1[SuffixKey] else Text("");
      if sfx.Num? then Prepared(f, o2, Err(WrongType(SuffixKey)))
      else
        var f := f.(suffix := Suffix(sfx.s));
        if store.main.None? then Prepared(f, o2, Err(NoData))
        else if |store.main.value.shape| != 4 then Prepared(f, o2, Err(NotFourD))
        else
          var img := store.main.value;
          var mask := Selection(roi, |img.rows|);
          if store.t10.None? then Prepared(f, o2, Err(MissingT10))
          else PrepareOptions(f, img, mask, store.t10.value, o2)
  }

  /** The numeric options in their order; `ve-thresh` is recorded as soon as
      it is read. */
  function PrepareOptions(f: Fields, img: Image, mask: seq<bool>, t10: seq<real>, opts: Options): (r: Prepared)
    requires |img.shape| == 4
    ensures r.fields.suffix == f.suffix
    ensures r.outcome.Ok? ==>
      NumbersGiven(opts) && ModelKey in opts && (Dose in opts ==> opts[Dose].Num?) &&
      var a := r.outcome.value;
      a.r1 == opts[R1].x && a.r2 == opts[R2].x && a.dt == opts[Dt].x && a.tinj == opts[Tinj].x &&
      a.tr == opts[Tr].x && a.te == opts[Te].x && a.fa == opts[Fa].x && a.model == opts[ModelKey] &&
      a.dose == (if Dose in opts then opts[Dose].x else 0.0) && a.samples == img.shape[3] &&
      r.fields.thresh == opts[VeThresh].x && r.rest == opts - KeySet(NumberKeys) - {Dose} - {ModelKey}
    ensures r.outcome.Err? ==>
      r.fields.baseline == f.baseline && r.fields.shape == f.shape &&
      (r.outcome.error !in {MaskSizeMismatch, T10SizeMismatch, NonFinite} ==> r.fields.mask == f.mask) &&
      r.outcome.error != RoiNotFound
  {
    PopNumbers(opts);
    match PopAll(opts, NumberKeys)
    case Err((e, o)) => Prepared(f, o, Err(e))
    case Ok((xs, o3)) =>
      assert Dose !in KeySet(NumberKeys) && ModelKey !in KeySet(NumberKeys);
      PrepareDose(f.(thresh := xs[7]), img, mask, t10, xs, o3)
  }

  /** After the eight numbers: `dose`, defaulting to 0, then `model`; a zero
      sampling interval fails when the baseline window is computed. */
  function PrepareDose(f: Fields, img: Image, mask: seq<bool>, t10: seq<real>, xs: seq<real>, opts: Options): (r: Prepared)
    requires |img.shape| == 4 && |xs| == 8
    ensures r.fields.suffix == f.suffix
    ensures r.outcome.Ok? ==>
      ModelKey in opts && (Dose in opts ==> opts[Dose].Num?) &&
      var a := r.outcome.value;
      a.r1 == xs[0] && a.r2 == xs[1] && a.dt == xs[2] && a.tinj == xs[3] &&
      a.tr == xs[4] && a.te == xs[5] && a.fa == xs[6] && a.model == opts[ModelKey] &&
      a.dose == (if Dose in opts then opts[Dose].x else 0.0) && a.samples == img.shape[3] &&
      r.fields.thresh == f.thresh && r.rest == opts - {Dose} - {ModelKey}
    ensures r.outcome.Err? ==>
      r.fields.baseline == f.baseline && r.fields.shape == f.shape &&
      (r.outcome.error !in {MaskSizeMismatch, T10SizeMismatch, NonFinite} ==> r.fields.mask == f.mask) &&
      r.outcome.error != RoiNotFound
  {
    var dose := if Dose in opts then opts[Dose] else Num(0.0);
    var o4 := opts - {Dose};
    if dose.Text? then Prepared(f, o4, Err(WrongType(Dose)))
    else if ModelKey !in o4 then Prepared(f, o4, Err(MissingOption(ModelKey)))
    else
      var o5 := o4 - {ModelKey};
      if xs[2] == 0.0 then Prepared(f, o5, Err(ZeroSamplingInterval))
      else
        var settings := FitDispatch.WorkerArgs([], img.shape[3], [], xs[0], xs[1], xs[2], xs[3], xs[4], xs[5], xs[6],
                                               dose.x, o4[ModelKey]);
        PrepareData(f, img, mask, t10, o5, settings)
  }

  /** Baseline window, log message, selection and normalisation; `settings`
      carries the options, and its voxels and T10 are filled in here. */
  function PrepareData(f: Fields, img: Image, mask: seq<bool>, t10: seq<real>, rest: Options,
                       settings: FitDispatch.WorkerArgs): (r: Prepared)
    requires settings.dt != 0.0
    ensures r.rest == rest && r.fields.suffix == f.suffix && r.fields.thresh == f.thresh
    ensures r.fields.log == f.log + BaselineMessage(SignalNorm.BaselinePoints(settings.tinj, settings.dt))
    ensures r.fields.mask == Some(mask)
    ensures r.outcome.Err? ==>
      r.fields.baseline == f.baseline && r.fields.shape == f.shape &&
      r.outcome.error in {MaskSizeMismatch, T10SizeMismatch, NonFinite}
    ensures r.outcome.Ok? ==>
      |mask| == |img.rows| == |t10| && r.fields.shape == img.shape && r.fields.baseline.Some? &&
      |r.fields.baseline.value| == |r.outcome.value.voxels| == Count(mask) &&
      r.outcome.value == settings.(voxels := r.outcome.value.voxels, t10 := Gather(t10, mask))
  {
    var points := SignalNorm.BaselinePoints(settings.tinj, settings.dt);
    var f := f.(log := f.log + BaselineMessage(points), mask := Some(mask));
    if |mask| != |img.rows| then Prepared(f, rest, Err(MaskSizeMismatch))
    else if |t10| != |mask| then Prepared(f, rest, Err(T10SizeMismatch))
    else
      var bs := Gather(Baselines(img.rows, points), mask);
      if !(forall i :: 0 <= i < |bs| ==> Usable(bs[i])) then Prepared(f, rest, Err(NonFinite))
      else
        var b := Present(bs);
        Prepared(f.(baseline := Some(b), shape := img.shape), rest,
                 Ok(settings.(voxels := Normalised(Gather(img.rows, mask), b), t10 := Gather(t10, mask))))
  }

  // ---------------------------------------------------- what run promises

  /** Keys that a successful run consumes. */
  function Consumed(): set<Key>
  {
    {RoiKey, SuffixKey, Dose, ModelKey} + KeySet(NumberKeys)
  }

  /** A run that gets past the data checks and T10 continues with the
      numeric options, the suffix recorded and the log cleared. */
  lemma PrepareReachesOptions(f0: Fields, store: Store, opts: Options)
    requires Prepare(f0, store, opts).outcome.Ok?
    ensures SelectRoi(store, opts).Ok? && store.main.Some? && |store.main.value.shape| == 4 && store.t10.Some?
    ensures SuffixKey in opts ==> opts[SuffixKey].Text?
    ensures Prepare(f0, store, opts) ==
      PrepareOptions(f0.(log := "", suffix := Suffix(if SuffixKey in opts then opts[SuffixKey].s else "")),
                     store.main.value, Selection(SelectRoi(store, opts).value, |store.main.value.rows|),
                     store.t10.value, opts - {RoiKey} - {SuffixKey})
  {
  }

  /** The numeric options, as popped in order, when the run continues to the data. */
  lemma PrepareOptionsReachesData(f: Fields, img: Image, mask: seq<bool>, t10: seq<real>, opts: Options)
    requires |img.shape| == 4
    requires PrepareOptions(f, img, mask, t10, opts).outcome.Ok?
    ensures NumbersGiven(opts) && ModelKey in opts && (Dose in opts ==> opts[Dose].Num?) && opts[Dt].x != 0.0
    ensures PrepareOptions(f, img, mask, t10, opts) ==
      PrepareData(f.(thresh := opts[VeThresh].x), img, mask, t10, opts - KeySet(NumberKeys) - {Dose} - {ModelKey},
        FitDispatch.WorkerArgs([], img.shape[3], [], opts[R1].x, opts[R2].x, opts[Dt].x, opts[Tinj].x,
                               opts[Tr].x, opts[Te].x, opts[Fa].x,
                               if Dose in opts then opts[Dose].x else 0.0, opts[ModelKey]))
  {
    PopNumbers(opts);
  }

  /** The data stage, when it hands the worker its arguments: every selected
      voxel's row is normalised by its own baseline, at the voxel's rank. */
  lemma PrepareDataOk(f: Fields, img: Image, mask: seq<bool>, t10: seq<real>, rest: Options,
                      settings: FitDispatch.WorkerArgs)
    requires settings.dt != 0.0
    requires PrepareData(f, img, mask, t10, rest, settings).outcome.Ok?
    ensures
      var p := PrepareData(f, img, mask, t10, rest, settings);
      var points := SignalNorm.BaselinePoints(settings.tinj, settings.dt);
      var a := p.outcome.value;
      p.fields.baseline.Some? &&
      var b := p.fields.baseline.value;
      p.fields == f.(log := f.log + BaselineMessage(points), mask := Some(mask), baseline := Some(b), shape := img.shape) &&
      p.rest == rest && a == settings.(voxels := a.voxels, t10 := Gather(t10, mask)) &&
      |mask| == |img.rows| == |t10| && |a.voxels| == |b| == Count(mask) &&
      forall k :: 0 <= k < |mask| && mask[k] ==>
        Count(mask[..k]) < |b| &&
        SignalNorm.Baseline(img.rows[k], points) == Some(b[Count(mask[..k])]) &&
        a.voxels[Count(mask[..k])] == SignalNorm.EnhanceCurve(img.rows[k], b[Count(mask[..k])])
  {
    var p := PrepareData(f, img, mask, t10, rest, settings);
    var points := SignalNorm.BaselinePoints(settings.tinj, settings.dt);
    var bs := Baselines(img.rows, points);
    forall k | 0 <= k < |mask| && mask[k]
      ensures Count(mask[..k]) < Count(mask)
      ensures Gather(bs, mask)[Count(mask[..k])] == bs[k]
      ensures Gather(img.rows, mask)[Count(mask[..k])] == img.rows[k]
    {
      GatherAt(bs, mask, k);
      GatherAt(img.rows, mask, k);
    }
  }

  /** A run that reaches the worker: the selection is the ROI's non-zero
      voxels (every voxel without an ROI), each selected voxel's row becomes
      the enhancement over its own baseline at the voxel's rank, T10 is
      selected the same way, and the record holds the log message, mask,
      selected baselines and shape. */
  lemma PrepareSelects(f0: Fields, store: Store, opts: Options)
    requires Prepare(f0, store, opts).outcome.Ok?
    ensures store.main.Some? && store.t10.Some? && |store.main.value.shape| == 4 && SelectRoi(store, opts).Ok?
    ensures
      var p := Prepare(f0, store, opts);
      var img := store.main.value;
      var a := p.outcome.value;
      a.dt != 0.0 && p.fields.mask.Some? && p.fields.baseline.Some? &&
      var points := SignalNorm.BaselinePoints(a.tinj, a.dt);
      var mask := p.fields.mask.value;
      var b := p.fields.baseline.value;
      mask == Selection(SelectRoi(store, opts).value, |img.rows|) &&
      |mask| == |img.rows| == |store.t10.value| && |a.voxels| == |b| == Count(mask) &&
      a.samples == img.shape[3] && a.t10 == Gather(store.t10.value, mask) &&
      p.fields.log == BaselineMessage(points) && p.fields.shape == img.shape &&
      forall k :: 0 <= k < |mask| && mask[k] ==>
        Count(mask[..k]) < |b| &&
        SignalNorm.Baseline(img.rows[k], points) == Some(b[Count(mask[..k])]) &&
        a.voxels[Count(mask[..k])] == SignalNorm.EnhanceCurve(img.rows[k], b[Count(mask[..k])])
  {
    PrepareReachesOptions(f0, store, opts);
    var img := store.main.value;
    var mask := Selection(SelectRoi(store, opts).value, |img.rows|);
    var o := opts - {RoiKey} - {SuffixKey};
    var f := f0.(log := "", suffix := Suffix(if SuffixKey in opts then opts[SuffixKey].s else ""));
    PrepareOptionsReachesData(f, img, mask, store.t10.value, o);
    var settings := FitDispatch.WorkerArgs([], img.shape[3], [], o[R1].x, o[R2].x, o[Dt].x, o[Tinj].x,
                                           o[Tr].x, o[Te].x, o[Fa].x,
                                           if Dose in o then o[Dose].x else 0.0, o[ModelKey]);
    PrepareDataOk(f.(thresh := o[VeThresh].x), img, mask, store.t10.value,
                  o - KeySet(NumberKeys) - {Dose} - {ModelKey}, settings);
  }

  /** A run that reaches the worker passes every option on as given, with the
      dose defaulting to 0, records the threshold, and consumes exactly the
      options it reads. */
  lemma PrepareOptionsPassed(f0: Fields, store: Store, opts: Options)
    requires Prepare(f0, store, opts).outcome.Ok?
    ensures NumbersGiven(opts) && ModelKey in opts && (Dose in opts ==> opts[Dose].Num?)
    ensures
      var p := Prepare(f0, store, opts);
      var a := p.outcome.value;
      a.r1 == opts[R1].x && a.r2 == opts[R2].x && a.dt == opts[Dt].x && a.tinj == opts[Tinj].x &&
      a.tr == opts[Tr].x && a.te == opts[Te].x && a.fa == opts[Fa].x && a.model == opts[ModelKey] &&
      a.dose == (if Dose in opts then opts[Dose].x else 0.0) &&
      p.fields.thresh == opts[VeThresh].x &&
      p.rest == opts - Consumed()
  {
    PrepareReachesOptions(f0, store, opts);
    RestUnconsumed(opts);
  }

  lemma RestUnconsumed(opts: Options)
    ensures opts - {RoiKey} - {SuffixKey} - KeySet(NumberKeys) - {Dose} - {ModelKey} == opts - Consumed()
  {
    var rest := opts - {RoiKey} - {SuffixKey} - KeySet(NumberKeys) - {Dose} - {ModelKey};
    assert forall k :: k in rest <==> k in opts - Consumed();
  }

  /** An unknown ROI name (or a non-text one) is the first error, and the only
      way to get it. */
  lemma PrepareRoiNotFound(f0: Fields, store: Store, opts: Options)
    ensures Prepare(f0, store, opts).outcome == Err(RoiNotFound) <==>
      RoiKey in opts && !(opts[RoiKey].Text? && opts[RoiKey].s in store.rois)
    ensures Prepare(f0, store, opts).outcome == Err(RoiNotFound) ==>
      Prepare(f0, store, opts).fields == f0.(log := "")
  {
  }

  /** The suffix is recorded once the ROI is found, whatever happens after. */
  lemma PrepareSuffix(f0: Fields, store: Store, opts: Options)
    requires SelectRoi(store, opts).Ok?
    requires SuffixKey in opts ==> opts[SuffixKey].Text?
    ensures Prepare(f0, store, opts).fields.suffix ==
      Suffix(if SuffixKey in opts then opts[SuffixKey].s else "")
  {
  }

  /** A failed run leaves the baseline and shape of the previous run, and the
      mask too unless it got past the baseline window. */
  lemma PrepareErrKeeps(f0: Fields, store: Store, opts: Options)
    requires Prepare(f0, store, opts).outcome.Err?
    ensures Prepare(f0, store, opts).fields.baseline == f0.baseline
    ensures Prepare(f0, store, opts).fields.shape == f0.shape
    ensures Prepare(f0, store, opts).outcome.error !in {MaskSizeMismatch, T10SizeMismatch, NonFinite} ==>
      Prepare(f0, store, opts).fields.mask == f0.mask
  {
  }

  // ---------------------------------------------------------- the process

  /** The latest progress in the queue, as a fraction, if there is any. */
  function Latest(queue: seq<real>): seq<real>
  {
    if queue == [] then [] else [queue[|queue| - 1] / 100.0]
  }

  /** Two successive drains of the worker's queue, the first ending after its
      k-th report and the second after its m-th, emit fractions in (0, 1] that
      strictly increase; the drain that takes the final report emits 1. */
  lemma DrainsIncrease(n: nat, k: nat, m: nat)
    requires n >= 1 && 1 <= k < m <= FitDispatch.Steps(n) + 1
    ensures FitDispatch.Steps(n) > 0
    ensures var q := FitDispatch.Queued(FitDispatch.Steps(n));
      m <= |q| && |Latest(q[..k])| == 1 == |Latest(q[..m])| &&
      0.0 < Latest(q[..k])[0] < Latest(q[..m])[0] <= 1.0 &&
      (m == |q| ==> Latest(q[..m]) == [1.0])
  {
    var steps := FitDispatch.Steps(n);
    FitDispatch.QueuedIncreasing(n);
    FitDispatch.QueuedRange(steps);
    var q := FitDispatch.Queued(steps);
    assert q[..k][k - 1] == q[k - 1] && q[..m][m - 1] == q[m - 1];
    FitDispatch.DivMonotone(q[k - 1], q[m - 1], 100.0);
  }

  class PkModellingProcess {
    var log: string
    var suffix: string
    var thresh: real
    var mask: Option<seq<bool>>
    var baseline: Option<seq<real>>
    var shape: seq<nat>
    /** Progress values put by the worker and not yet taken. */
    var queue: seq<real>
    /** Progress fractions emitted to the user interface, oldest first. */
    var emitted: seq<real>

    function Record(): Fields
      reads this
    {
      Fields(log, suffix, thresh, mask, baseline, shape)
    }

    constructor()
      ensures Record() == Fields("", "", 0.0, None, None, [])
      ensures queue == [] && emitted == []
    {
      log, suffix, thresh, mask, baseline, shape := "", "", 0.0, None, None, [];
      queue, emitted := [], [];
    }

    /** `run`: the options left over, and either the worker's arguments (the
        worker is started with them) or the error raised. */
    method Run(store: Store, options: Options)
      returns (rest: Options, outcome: Result<FitDispatch.WorkerArgs, RunError>)
      modifies this
      ensures Prepared(Record(), rest, outcome) == Prepare(old(Record()), store, options)
      ensures queue == old(queue) && emitted == old(emitted)
    {
      log := "";
      var roi := SelectRoi(store, options);
      rest := options - {RoiKey};
      if roi.Err? {
        outcome := Err(roi.error);
        return;
      }
      var option := if SuffixKey in rest then rest[SuffixKey] else Text("");
      rest := rest - {SuffixKey};
      if option.Num? {
        outcome := Err(WrongType(SuffixKey));
        return;
      }
      suffix := Suffix(option.s);
      if store.main.None? {
        outcome := Err(NoData);
        return;
      }
      var img := store.main.value;
      if |img.shape| != 4 {
        outcome := Err(NotFourD);
        return;
      }
      var selection := Selection(roi.value, |img.rows|);
      if store.t10.None? {
        outcome := Err(MissingT10);
        return;
      }
      rest, outcome := RunOptions(img, selection, store.t10.value, rest);
    }

    /** The options part of `run`, from `r1` to `ve-thresh`. */
    method RunOptions(img: Image, selection: seq<bool>, t10: seq<real>, options: Options)
      returns (rest: Options, outcome: Result<FitDispatch.WorkerArgs, RunError>)
      requires |img.shape| == 4
      modifies this
      ensures Prepared(Record(), rest, outcome) == PrepareOptions(old(Record()), img, selection, t10, options)
      ensures queue == old(queue) && emitted == old(emitted)
    {
      var popped := PopAll(options, NumberKeys);
      if popped.Err? {
        rest, outcome := popped.error.1, Err(popped.error.0);
        return;
      }
      thresh := popped.value.0[7];
      rest, outcome := RunDose(img, selection, t10, popped.value.0, popped.value.1);
    }

    /** `dose` and `model`, then the baseline window. */
    method RunDose(img: Image, selection: seq<bool>, t10: seq<real>, xs: seq<real>, options: Options)
      returns (rest: Options, outcome: Result<FitDispatch.WorkerArgs, RunError>)
      requires |img.shape| == 4 && |xs| == 8
      modifies this
      ensures Prepared(Record(), rest, outcome) == PrepareDose(old(Record()), img, selection, t10, xs, options)
      ensures queue == old(queue) && emitted == old(emitted)
    {
      var dose := if Dose in options then options[Dose] else Num(0.0);
      rest := options - {Dose};
      if dose.Text? {
        outcome := Err(WrongType(Dose));
        return;
      }
      if ModelKey !in rest {
        outcome := Err(MissingOption(ModelKey));
        return;
      }
      var model := rest[ModelKey];
      rest := rest - {ModelKey};
      if xs[2] == 0.0 {
        outcome := Err(ZeroSamplingInterval);
        return;
      }
      var settings := FitDispatch.WorkerArgs([], img.shape[3], [], xs[0], xs[1], xs[2], xs[3], xs[4], xs[5], xs[6],
                                             dose.x, model);
      outcome := RunData(img, selection, t10, rest, settings);
    }

    /** The data part of `run`: baseline window, selection and normalisation. */
    method RunData(img: Image, selection: seq<bool>, t10: seq<real>, rest: Options, settings: FitDispatch.WorkerArgs)
      returns (outcome: Result<FitDispatch.WorkerArgs, RunError>)
      requires settings.dt != 0.0
      modifies this
      ensures Prepared(Record(), rest, outcome) == PrepareData(old(Record()), img, selection, t10, rest, settings)
      ensures queue == old(queue) && emitted == old(emitted)
    {
      var points := SignalNorm.BaselinePoints(settings.tinj, settings.dt);
      log := log + BaselineMessage(points);
      var all := Baselines(img.rows, points);
      mask := Some(selection);
      if |selection| != |img.rows| {
        outcome := Err(MaskSizeMismatch);
        return;
      }
      if |t10| != |selection| {
        outcome := Err(T10SizeMismatch);
        return;
      }
      var bs := Gather(all, selection);
      if !(forall i :: 0 <= i < |bs| ==> Usable(bs[i])) {
        outcome := Err(NonFinite);
        return;
      }
      var b := Present(bs);
      baseline := Some(b);
      var voxels := Normalised(Gather(img.rows, selection), b);
      shape := img.shape;
      outcome := Ok(settings.(voxels := voxels, t10 := Gather(t10, selection)));
    }

    /** `timeout`: drains the queue and emits only the latest progress, as a
        fraction; nothing is emitted when the queue is empty. */
    method Timeout()
      modifies this
      ensures queue == []
      ensures emitted == old(emitted) + Latest(old(queue))
      ensures Record() == old(Record())
    {
      if queue == [] {
        return;
      }
      ghost var q0 := queue;
      ghost var taken := 0;
      var progress := 0.0;
      while queue != []
        invariant 0 <= taken <= |q0| && queue == q0[taken..]
        invariant taken > 0 ==> progress == q0[taken - 1]
        invariant q0 != [] && Record() == old(Record()) && emitted == old(emitted)
        decreases |queue|
      {
        progress := queue[0];
        queue := queue[1..];
        taken := taken + 1;
      }
      emitted := emitted + [progress / 100.0];
    }

    /** `finished`: for a successful worker, appends its log and returns the
        six volumes to add to the store, built in place as the source does;
        for a failed one, does nothing. `pct(vol, q)` is the q-th percentile. */
    method Finished(result: FitDispatch.WorkerResult, pct: (seq<real>, real) -> real)
      returns (writes: seq<ResultMaps.Write>)
      requires result.Succeeded? ==>
        mask.Some? && baseline.Some? && ResultMaps.FitShaped(result.output, mask.value, baseline.value, shape)
      modifies this
      ensures result.Failed? ==> writes == [] && Record() == old(Record())
      ensures result.Succeeded? ==>
        Record() == old(Record()).(log := old(log) + result.output.log) &&
        writes == ResultMaps.Outputs(result.output, mask.value, baseline.value, shape, suffix, thresh, pct)
      ensures queue == old(queue) && emitted == old(emitted)
    {
      if result.Failed? {
        return [];
      }
      var out := result.output;
      log := log + out.log;
      writes := ResultMaps.Publish(out, mask.value, baseline.value, shape, suffix, thresh, pct);
    }
  }
}
