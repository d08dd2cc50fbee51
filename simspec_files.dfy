/** Packaging of one simulation result: the spectrum table and the emission-line
    table with their header cards, and the parameter summary, as
    `create_simspec_files` builds them from the parameter groups and the loaded
    engine outputs. */
module SimspecFiles {
  import opened Wrappers
  import opened Params

  /** A header value: `None`, a number, a string or a boolean. */
  datatype MetaValue = Missing | RealValue(r: real) | IntValue(i: int) | Text(s: string) | Flag(b: bool)

  /** The header keywords the tables carry; `KeyName` is the keyword as written to the file. */
  datatype HeaderKey =
    | EL_FLUX | EL_SIG | TMPLSPEC | TMPL_MAG | TMPL_WAV | TMPL_Z | R_EFF | EXPTIME | EXPTIME1 | EXPNUM
    | SEEING | ZANG | MOON_ZA | MOON_SEP | MOON_PH | FLDANG | DEGRADE | GAL_EXT | MED_RES

  function KeyName(k: HeaderKey): string {
    match k
    case EL_FLUX => "EL_FLUX"
    case EL_SIG => "EL_SIG"
    case TMPLSPEC => "TMPLSPEC"
    case TMPL_MAG => "TMPL_MAG"
    case TMPL_WAV => "TMPL_WAV"
    case TMPL_Z => "TMPL_Z"
    case R_EFF => "R_EFF"
    case EXPTIME => "EXPTIME"
    case EXPTIME1 => "EXPTIME1"
    case EXPNUM => "EXPNUM"
    case SEEING => "SEEING"
    case ZANG => "ZANG"
    case MOON_ZA => "MOON-ZA"
    case MOON_SEP => "MOON-SEP"
    case MOON_PH => "MOON-PH"
    case FLDANG => "FLDANG"
    case DEGRADE => "DEGRADE"
    case GAL_EXT => "GAL_EXT"
    case MED_RES => "MED_RES"
  }

  /** The comment written beside each keyword. */
  function KeyComment(k: HeaderKey): string {
    match k
    case EL_FLUX => "[erg/s^(-1)/cm^(-2)] Emission line flux"
    case EL_SIG => "[km/s] Emission line width sigma"
    case TMPLSPEC => "Template type"
    case TMPL_MAG => "[mag] AB mag to normalize template"
    case TMPL_WAV => "[nm] Wavelength for normalizing template"
    case TMPL_Z => "Reshift of the template"
    case R_EFF => "[arcsec] Effective radius of the target"
    case EXPTIME => "[s] Total exposure time"
    case EXPTIME1 => "[s] Single exposure time"
    case EXPNUM => "Number of exposures"
    case SEEING => "[arcsec] Seeing FWHM"
    case ZANG => "[degree] Zenith angle"
    case MOON_ZA => "[degree] Moon zenith angle"
    case MOON_SEP => "[degree] Moon-target separation"
    case MOON_PH => "Moon phase (0=new, 0.25=quater, 1=new)"
    case FLDANG => "[degree] PFS field angle (center=0, edge=0.675)"
    case DEGRADE => "Throughput degradation factor"
    case GAL_EXT => "[mag] E(B-V) of Galactive extinction"
    case MED_RES => "True if medium resolution mode"
  }

  /** Different keys are written as different keywords, so a header holds one card per keyword. */
  lemma KeyNameInjective(a: HeaderKey, b: HeaderKey)
    ensures KeyName(a) == KeyName(b) <==> a == b
  {
  }

  /** One header card: keyword and value; the comment is `KeyComment(key)`. */
  datatype Card = Card(key: HeaderKey, value: MetaValue)

  /** A row of the simulated spectrum file. */
  datatype SimspecRow = SimspecRow(wavelength: real, flux: real, error: real, mask: int, sky: real, arm: int)

  /** A row of the emission-line S/N file; the line table keeps these rows as they are. */
  datatype SnlineRow = SnlineRow(
    wavelength: real, fiberApertureFactor: real, effectiveCollectingArea: real,
    snlineB: real, snlineR: real, snlineN: real, snlineTot: real)

  /** A row of the continuum S/N file. */
  datatype SncontRow = SncontRow(
    arm: int, pixel: int, wavelength: real, sncont: real, signalPerExp: real,
    noiseWoObjPerExp: real, noiseWObjPerExp: real, inputSpec: real,
    convfacFlux2e: real, samplefac: real, sky: real)

  /** A row of the packaged spectrum table. `inputAbMag` is the input spectrum still in AB magnitudes. */
  datatype SpectrumRow = SpectrumRow(
    wavelength: real, flux: real, error: real, sn: real, inputAbMag: real,
    sky: real, mask: bool, arm: int, pixel: int)

  datatype SpectrumTable = SpectrumTable(columns: seq<string>, rows: seq<SpectrumRow>, meta: seq<Card>)
  datatype LineTable = LineTable(columns: seq<string>, rows: seq<SnlineRow>, meta: seq<Card>)

  /** One numbered item of the summary text: its values, each printed after the matching `ItemLabels(number)`. */
  datatype SummaryItem = SummaryItem(number: nat, values: seq<MetaValue>)

  /** The labels of the summary's numbered items. */
  function ItemLabels(number: nat): seq<string> {
    match number
    case 1 => ["Template spectrum"]
    case 2 => ["AB mag"]
    case 3 => ["Wavelength"]
    case 4 => ["Redshift"]
    case 5 => ["Emission line flux", "Emission line width"]
    case 6 => ["Galactic extinction", "Effective radius"]
    case 7 => ["Seeing FWHM"]
    case 8 => ["Throughput degradation factor"]
    case 9 => ["Moon zenith angle"]
    case 10 => ["Moon-target separation"]
    case 11 => ["Moon phase"]
    case 12 => ["Exposure time"]
    case 13 => ["Number of exposures"]
    case 14 => ["Distance from FoV center"]
    case 15 => ["Zenith angle"]
    case _ => []
  }

  /** The three results: spectrum table, line table, summary text. */
  datatype SimspecFiles = SimspecFiles(spectrum: SpectrumTable, line: LineTable, summary: seq<SummaryItem>)

  const SpectrumColumns := ["wavelength", "flux", "error", "sn", "flux_input", "sky", "mask", "arm", "pixel"]
  const LineColumns := ["wavelength", "fiber_aperture_factor", "effective_collecting_are",
                        "snline_b", "snline_r", "snline_n", "snline_tot"]

  /** The header keys both tables carry. */
  const SharedKeys := [TMPLSPEC, TMPL_MAG, TMPL_WAV, TMPL_Z, R_EFF, EXPTIME, EXPTIME1,
                       EXPNUM, SEEING, ZANG, MOON_ZA, MOON_SEP, MOON_PH, FLDANG,
                       DEGRADE, GAL_EXT, MED_RES]

  /** Template type, magnitude, wavelength and redshift as recorded in the headers. */
  datatype TemplateInfo = TemplateInfo(kind: MetaValue, mag: MetaValue, wave: MetaValue, redshift: MetaValue)

  /** The template values, or "Custom" and three `None`s when a spectrum was uploaded. */
  function TemplateOf(t: Target): TemplateInfo {
    if t.customInput.None? then
      TemplateInfo(Text(t.template), RealValue(t.mag), RealValue(t.wavelength), RealValue(t.redshift))
    else
      TemplateInfo(Text("Custom"), Missing, Missing, Missing)
  }

  /** The value the header card for `key` records, and the value the summary prints for it. */
  function HeaderValue(t: Target, e: Environment, i: Instrument, tel: Telescope, key: HeaderKey): MetaValue {
    var tm := TemplateOf(t);
    match key
    case EL_FLUX => RealValue(t.lineFlux)
    case EL_SIG => RealValue(t.lineWidth)
    case TMPLSPEC => tm.kind
    case TMPL_MAG => tm.mag
    case TMPL_WAV => tm.wave
    case TMPL_Z => tm.redshift
    case R_EFF => RealValue(t.rEff)
    case EXPTIME => IntValue(i.expTime * i.expNum)
    case EXPTIME1 => IntValue(i.expTime)
    case EXPNUM => IntValue(i.expNum)
    case SEEING => RealValue(e.seeing)
    case ZANG => IntValue(tel.zenithAngle)
    case MOON_ZA => IntValue(e.moonZenithAngle)
    case MOON_SEP => IntValue(e.moonTargetAngle)
    case MOON_PH => RealValue(e.moonPhase)
    case FLDANG => RealValue(i.fieldAngle)
    case DEGRADE => RealValue(e.degrade)
    case GAL_EXT => RealValue(t.galacticExtinction)
    case MED_RES => Flag(i.mrMode)
  }

  /** The line table's keys: the emission-line flux and width, then the spectrum table's keys. */
  const LineKeys := [EL_FLUX, EL_SIG] + SharedKeys

  /** One card per key, in the order given, each recording `HeaderValue`. */
  function Cards(keys: seq<HeaderKey>, t: Target, e: Environment, i: Instrument, tel: Telescope): seq<Card> {
    seq(|keys|, k requires 0 <= k < |keys| => Card(keys[k], HeaderValue(t, e, i, tel, keys[k])))
  }

  /** The spectrum table's header, written key by key in the order of `SharedKeys`. */
  function SpectrumMeta(t: Target, e: Environment, i: Instrument, tel: Telescope): seq<Card> {
    Cards(SharedKeys, t, e, i, tel)
  }

  /** The line table's header: the emission-line cards, then the spectrum table's cards. */
  function LineMeta(t: Target, e: Environment, i: Instrument, tel: Telescope): seq<Card> {
    Cards(LineKeys, t, e, i, tel)
  }

  /** The values printed after the labels of summary item `number`. */
  function ItemValues(t: Target, e: Environment, i: Instrument, tel: Telescope, number: nat): seq<MetaValue> {
    var tm := TemplateOf(t);
    match number
    case 1 => [tm.kind]
    case 2 => [tm.mag]
    case 3 => [tm.wave]
    case 4 => [tm.redshift]
    case 5 => [RealValue(t.lineFlux), RealValue(t.lineWidth)]
    case 6 => [RealValue(t.galacticExtinction), RealValue(t.rEff)]
    case 7 => [RealValue(e.seeing)]
    case 8 => [RealValue(e.degrade)]
    case 9 => [IntValue(e.moonZenithAngle)]
    case 10 => [IntValue(e.moonTargetAngle)]
    case 11 => [RealValue(e.moonPhase)]
    case 12 => [IntValue(i.expTime)]
    case 13 => [IntValue(i.expNum)]
    case 14 => [RealValue(i.fieldAngle)]
    case 15 => [IntValue(tel.zenithAngle)]
    case _ => []
  }

  /** The fifteen numbered items of the summary text, in order. */
  function Summary(t: Target, e: Environment, i: Instrument, tel: Telescope): seq<SummaryItem> {
    seq(15, k requires 0 <= k < 15 => SummaryItem(k + 1, ItemValues(t, e, i, tel, k + 1)))
  }

  function SpectrumRowOf(s: SimspecRow, c: SncontRow): SpectrumRow {
    SpectrumRow(s.wavelength, s.flux, s.error, c.sncont, c.inputSpec, s.sky, s.mask != 0, s.arm, c.pixel)
  }

  /** Whether a continuum S/N column of `nSncont` entries fits a table whose first column
      has `nSimspec` rows: the lengths agree, or a single entry is broadcast over a table
      that already has rows. */
  predicate ColumnsFit(nSimspec: nat, nSncont: nat) {
    nSncont == nSimspec || (nSncont == 1 && nSimspec > 0)
  }

  /** The continuum S/N row that spectrum row `k` takes: the single row when it is
      broadcast, row `k` otherwise. */
  function SncontIndex(nSncont: nat, k: nat): nat {
    if nSncont == 1 then 0 else k
  }

  /** `create_simspec_files`. Columns from the simulated spectrum and from the continuum
      S/N file share one table: the first column fixes the number of rows, and a later
      column must have that many entries or exactly one, which is repeated down the table. */
  function CreateSimspecFiles(t: Target, e: Environment, i: Instrument, tel: Telescope,
                              simspec: seq<SimspecRow>, snline: seq<SnlineRow>, sncont: seq<SncontRow>)
    : (r: Result<SimspecFiles>)
    ensures r.Ok? <==> ColumnsFit(|simspec|, |sncont|)
    ensures r.Ok? ==> |r.value.spectrum.rows| == |simspec| && r.value.line.rows == snline
  {
    if !ColumnsFit(|simspec|, |sncont|) then
      Err(ValueError("Inconsistent data column lengths"))
    else
      var rows := seq(|simspec|, k requires 0 <= k < |simspec| =>
        SpectrumRowOf(simspec[k], sncont[SncontIndex(|sncont|, k)]));
      Ok(SimspecFiles(
        SpectrumTable(SpectrumColumns, rows, SpectrumMeta(t, e, i, tel)),
        LineTable(LineColumns, snline, LineMeta(t, e, i, tel)),
        Summary(t, e, i, tel)))
  }

  // ------------------------------------------------------ header lookup

  /** The value of the first card with this key. */
  function Lookup(meta: seq<Card>, key: HeaderKey): Option<MetaValue> {
    if meta == [] then None
    else if meta[0].key == key then Some(meta[0].value)
    else Lookup(meta[1..], key)
  }

  predicate DistinctKeys(meta: seq<Card>) {
    forall j, k :: 0 <= j < k < |meta| ==> meta[j].key != meta[k].key
  }

  /** No card before position `k` carries the key of card `k`. */
  predicate FirstWithKey(meta: seq<Card>, k: nat)
    requires k < |meta|
  {
    forall j :: 0 <= j < k ==> meta[j].key != meta[k].key
  }

  /** Looking up the key of a card that no earlier card shares finds that card's value
      (in a header with distinct keys, every card is such a card). */
  lemma {:induction false} LookupAt(meta: seq<Card>, k: nat)
    requires k < |meta| && FirstWithKey(meta, k)
    ensures Lookup(meta, meta[k].key) == Some(meta[k].value)
  {
    if k > 0 {
      assert meta[0].key != meta[k].key;
      var rest := meta[1..];
      assert rest[k - 1] == meta[k];
      forall j | 0 <= j < k - 1 ensures rest[j].key != rest[k - 1].key {
        assert rest[j] == meta[j + 1];
      }
      LookupAt(rest, k - 1);
    }
  }

  /** Looking up a key in a header written from a key list finds the key's value exactly when the key is listed. */
  lemma {:induction false} LookupCards(keys: seq<HeaderKey>, t: Target, e: Environment, i: Instrument, tel: Telescope,
                                       key: HeaderKey)
    ensures Lookup(Cards(keys, t, e, i, tel), key) == if key in keys then Some(HeaderValue(t, e, i, tel, key)) else None
  {
    if keys != [] {
      var cards := Cards(keys, t, e, i, tel);
      assert cards[1..] == Cards(keys[1..], t, e, i, tel);
      assert keys == [keys[0]] + keys[1..];
      LookupCards(keys[1..], t, e, i, tel, key);
    }
  }

  lemma SharedKeysDistinct()
    ensures forall j, k :: 0 <= j < k < |SharedKeys| ==> SharedKeys[j] != SharedKeys[k]
    ensures EL_FLUX !in SharedKeys && EL_SIG !in SharedKeys
  {
  }

  /** No header repeats a key. */
  lemma MetaKeysDistinct(t: Target, e: Environment, i: Instrument, tel: Telescope)
    ensures DistinctKeys(SpectrumMeta(t, e, i, tel))
    ensures DistinctKeys(LineMeta(t, e, i, tel))
  {
    SharedKeysDistinct();
    var l := LineMeta(t, e, i, tel);
    forall j, k | 0 <= j < k < |l| ensures l[j].key != l[k].key {
      if j >= 2 {
        assert l[j].key == SharedKeys[j - 2] && l[k].key == SharedKeys[k - 2];
      } else if k >= 2 {
        assert l[k].key == SharedKeys[k - 2] && SharedKeys[k - 2] in SharedKeys;
      }
    }
  }

  // ------------------------------------------------- the stated properties

  /** Total exposure time is the single exposure time times the number of exposures, in both tables. */
  lemma ExposureHeaders(t: Target, e: Environment, i: Instrument, tel: Telescope)
    ensures Lookup(SpectrumMeta(t, e, i, tel), EXPTIME) == Some(IntValue(i.expTime * i.expNum))
    ensures Lookup(LineMeta(t, e, i, tel), EXPTIME) == Some(IntValue(i.expTime * i.expNum))
    ensures Lookup(SpectrumMeta(t, e, i, tel), EXPTIME1) == Some(IntValue(i.expTime))
    ensures Lookup(LineMeta(t, e, i, tel), EXPTIME1) == Some(IntValue(i.expTime))
    ensures Lookup(SpectrumMeta(t, e, i, tel), EXPNUM) == Some(IntValue(i.expNum))
    ensures Lookup(LineMeta(t, e, i, tel), EXPNUM) == Some(IntValue(i.expNum))
  {
    LookupCards(SharedKeys, t, e, i, tel, EXPTIME);
    LookupCards(LineKeys, t, e, i, tel, EXPTIME);
    LookupCards(SharedKeys, t, e, i, tel, EXPTIME1);
    LookupCards(LineKeys, t, e, i, tel, EXPTIME1);
    LookupCards(SharedKeys, t, e, i, tel, EXPNUM);
    LookupCards(LineKeys, t, e, i, tel, EXPNUM);
  }

  /** The template headers name the template, or say "Custom" with no values when a spectrum was uploaded. */
  lemma TemplateHeaders(t: Target, e: Environment, i: Instrument, tel: Telescope)
    ensures t.customInput == None ==>
      Lookup(SpectrumMeta(t, e, i, tel), TMPLSPEC) == Some(Text(t.template))
      && Lookup(SpectrumMeta(t, e, i, tel), TMPL_MAG) == Some(RealValue(t.mag))
      && Lookup(SpectrumMeta(t, e, i, tel), TMPL_WAV) == Some(RealValue(t.wavelength))
      && Lookup(SpectrumMeta(t, e, i, tel), TMPL_Z) == Some(RealValue(t.redshift))
    ensures t.customInput != None ==>
      Lookup(SpectrumMeta(t, e, i, tel), TMPLSPEC) == Some(Text("Custom"))
      && Lookup(SpectrumMeta(t, e, i, tel), TMPL_MAG) == Some(Missing)
      && Lookup(SpectrumMeta(t, e, i, tel), TMPL_WAV) == Some(Missing)
      && Lookup(SpectrumMeta(t, e, i, tel), TMPL_Z) == Some(Missing)
  {
    LookupCards(SharedKeys, t, e, i, tel, TMPLSPEC);
    LookupCards(SharedKeys, t, e, i, tel, TMPL_MAG);
    LookupCards(SharedKeys, t, e, i, tel, TMPL_WAV);
    LookupCards(SharedKeys, t, e, i, tel, TMPL_Z);
  }

  /** Both tables record the same value for every shared key. */
  lemma SharedKeysAgree(t: Target, e: Environment, i: Instrument, tel: Telescope)
    ensures forall k :: 0 <= k < |SharedKeys| ==>
      Lookup(SpectrumMeta(t, e, i, tel), SharedKeys[k]) == Lookup(LineMeta(t, e, i, tel), SharedKeys[k])
      && Lookup(SpectrumMeta(t, e, i, tel), SharedKeys[k]).Some?
  {
    forall k | 0 <= k < |SharedKeys|
      ensures Lookup(SpectrumMeta(t, e, i, tel), SharedKeys[k]) == Lookup(LineMeta(t, e, i, tel), SharedKeys[k])
      ensures Lookup(SpectrumMeta(t, e, i, tel), SharedKeys[k]).Some?
    {
      assert LineKeys[k + 2] == SharedKeys[k];
      LookupCards(SharedKeys, t, e, i, tel, SharedKeys[k]);
      LookupCards(LineKeys, t, e, i, tel, SharedKeys[k]);
    }
  }

  /** Only the line table carries the emission-line flux and width. */
  lemma LineOnlyHeaders(t: Target, e: Environment, i: Instrument, tel: Telescope)
    ensures Lookup(LineMeta(t, e, i, tel), EL_FLUX) == Some(RealValue(t.lineFlux))
    ensures Lookup(LineMeta(t, e, i, tel), EL_SIG) == Some(RealValue(t.lineWidth))
    ensures Lookup(SpectrumMeta(t, e, i, tel), EL_FLUX) == None
    ensures Lookup(SpectrumMeta(t, e, i, tel), EL_SIG) == None
  {
    SharedKeysDistinct();
    LookupCards(LineKeys, t, e, i, tel, EL_FLUX);
    LookupCards(LineKeys, t, e, i, tel, EL_SIG);
    LookupCards(SharedKeys, t, e, i, tel, EL_FLUX);
    LookupCards(SharedKeys, t, e, i, tel, EL_SIG);
  }

  /** The spectrum table has one row per simulated-spectrum row; the columns are copied, the mask made boolean. */
  lemma SpectrumRowsCopied(t: Target, e: Environment, i: Instrument, tel: Telescope,
                           simspec: seq<SimspecRow>, snline: seq<SnlineRow>, sncont: seq<SncontRow>, k: nat)
    requires ColumnsFit(|simspec|, |sncont|) && k < |simspec|
    ensures var r := CreateSimspecFiles(t, e, i, tel, simspec, snline, sncont);
      var c := sncont[if |sncont| == 1 then 0 else k];
      r.Ok? && |r.value.spectrum.rows| == |simspec|
      && r.value.spectrum.rows[k].wavelength == simspec[k].wavelength
      && r.value.spectrum.rows[k].flux == simspec[k].flux
      && r.value.spectrum.rows[k].error == simspec[k].error
      && r.value.spectrum.rows[k].sky == simspec[k].sky
      && r.value.spectrum.rows[k].arm == simspec[k].arm
      && (r.value.spectrum.rows[k].mask <==> simspec[k].mask != 0)
      && r.value.spectrum.rows[k].sn == c.sncont
      && r.value.spectrum.rows[k].pixel == c.pixel
  {
  }

  /** A one-row continuum S/N file gives every row of a non-empty spectrum the same S/N,
      input flux and pixel; against an empty spectrum it is an error. */
  lemma SncontBroadcast(t: Target, e: Environment, i: Instrument, tel: Telescope,
                        simspec: seq<SimspecRow>, snline: seq<SnlineRow>, c: SncontRow)
    ensures var r := CreateSimspecFiles(t, e, i, tel, simspec, snline, [c]);
      (r.Ok? <==> |simspec| > 0)
      && (r.Ok? ==> forall k :: 0 <= k < |r.value.spectrum.rows| ==>
            r.value.spectrum.rows[k].sn == c.sncont && r.value.spectrum.rows[k].inputAbMag == c.inputSpec
            && r.value.spectrum.rows[k].pixel == c.pixel)
  {
  }

  /** The summary lists items 1 to 15, in order, and every value has its label. */
  lemma SummaryNumbered(t: Target, e: Environment, i: Instrument, tel: Telescope)
    ensures |Summary(t, e, i, tel)| == 15
    ensures forall k :: 0 <= k < 15 ==> Summary(t, e, i, tel)[k].number == k + 1
    ensures forall k :: 0 <= k < 15 ==> |Summary(t, e, i, tel)[k].values| == |ItemLabels(k + 1)| > 0
  {
    forall k | 0 <= k < 15 ensures |Summary(t, e, i, tel)[k].values| == |ItemLabels(k + 1)| > 0 {
      assert Summary(t, e, i, tel)[k].values == ItemValues(t, e, i, tel, k + 1);
    }
  }

  /** The summary's template items repeat the template header values. */
  lemma SummaryTemplateItems(t: Target, e: Environment, i: Instrument, tel: Telescope)
    ensures var sm, s := Summary(t, e, i, tel), SpectrumMeta(t, e, i, tel);
      Some(sm[0].values[0]) == Lookup(s, TMPLSPEC)
      && Some(sm[1].values[0]) == Lookup(s, TMPL_MAG)
      && Some(sm[2].values[0]) == Lookup(s, TMPL_WAV)
      && Some(sm[3].values[0]) == Lookup(s, TMPL_Z)
  {
    LookupCards(SharedKeys, t, e, i, tel, TMPLSPEC);
    LookupCards(SharedKeys, t, e, i, tel, TMPL_MAG);
    LookupCards(SharedKeys, t, e, i, tel, TMPL_WAV);
    LookupCards(SharedKeys, t, e, i, tel, TMPL_Z);
  }

  /** The summary's exposure items repeat the single exposure time and the number of exposures. */
  lemma SummaryExposureItems(t: Target, e: Environment, i: Instrument, tel: Telescope)
    ensures var sm, s := Summary(t, e, i, tel), SpectrumMeta(t, e, i, tel);
      Some(sm[11].values[0]) == Lookup(s, EXPTIME1) && Some(sm[12].values[0]) == Lookup(s, EXPNUM)
  {
    LookupCards(SharedKeys, t, e, i, tel, EXPTIME1);
    LookupCards(SharedKeys, t, e, i, tel, EXPNUM);
  }
}
