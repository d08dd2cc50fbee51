/** Resolution of the spectral source of a target: a custom upload, a catalog
    template, or the analytic flat-in-frequency source; and the wavelength window
    applied when a template spectrum is written out. */
module SpecTemplates {
  import opened Wrappers
  import opened Paths
  import opened Params

  const FlatInFrequency := "Flat in frequency"

  /** Name of the magnitude file written into the temporary directory. */
  const MagFileTemplate := "mag_file_template.txt"

  /** Directory of the template spectra, relative to the package directory. */
  const DataDir := "spectemplates/output"

  /** The fixed catalog: display name to template file (`None` for the analytic source). */
  const TemplateFiles: map<string, Option<string>> := map[
    "Star-forming galaxy" := Some("galaxy_starforming.fits"),
    "Quiescent galaxy" := Some("galaxy_quiescent.fits"),
    "Quasar" := Some("quasar.fits"),
    "B0V" := Some("star_b0v.fits"),
    "A0V" := Some("star_a0v.fits"),
    "F0V" := Some("star_f0v.fits"),
    "G2V" := Some("star_g2v.fits"),
    "K0V" := Some("star_k0v.fits"),
    "M0V" := Some("star_m0v.fits"),
    "K0III" := Some("star_k0iii.fits"),
    "M0III" := Some("star_m0iii.fits"),
    FlatInFrequency := None
  ]

  /** The catalog has twelve names, and only the flat source has no file. */
  lemma CatalogShape()
    ensures |TemplateFiles| == 12
    ensures FlatInFrequency in TemplateFiles
    ensures forall name :: name in TemplateFiles ==> (TemplateFiles[name] == None <==> name == FlatInFrequency)
  {
    CatalogSize();
    OnlyFlatHasNoFile();
  }

  lemma CatalogSize()
    ensures |TemplateFiles| == 12
  {
    var names := ["Star-forming galaxy", "Quiescent galaxy", "Quasar", "B0V", "A0V", "F0V",
                  "G2V", "K0V", "M0V", "K0III", "M0III", FlatInFrequency];
    assert TemplateFiles.Keys == set name | name in names;
    DistinctCard(names);
  }

  lemma OnlyFlatHasNoFile()
    ensures FlatInFrequency in TemplateFiles
    ensures forall name :: name in TemplateFiles ==> (TemplateFiles[name] == None <==> name == FlatInFrequency)
  {
  }

  /** A sequence of pairwise different strings has as many elements as its set. */
  lemma {:induction false} DistinctCard(s: seq<string>)
    requires forall i, j :: 0 <= i < j < |s| ==> s[i] != s[j]
    ensures |set x | x in s| == |s|
  {
    if s != [] {
      var last := s[|s| - 1];
      var init := s[..|s| - 1];
      DistinctCard(init);
      assert s == init + [last];
      assert last !in init;
      assert (set x | x in s) == (set x | x in init) + {last};
    }
  }

  /** What a successful resolution produces besides `mag_file`. */
  datatype Source =
    | CustomSpectrum(upload: seq<byte>, written: string)      // the upload converted into `written`
    | FlatSource                                             // no file at all
    | TemplateSpectrum(templateFile: string, written: string) // a catalog file normalized into `written`

  /** The new `mag_file` and the outcome; the template branch assigns `mag_file`
      before it looks the name up, so a `KeyError` leaves it changed. */
  datatype Resolution = Resolution(magFile: MagFile, outcome: Result<Source>)

  /** `create_template_spectrum` as a function of the target it reads. */
  function Resolve(t: Target, pkgdir: string, tmpdir: string): Resolution {
    var written := Join(tmpdir, MagFileTemplate);
    if t.customInput.Some? then
      Resolution(MagPath(written), Ok(CustomSpectrum(t.customInput.value, written)))
    else if t.template == FlatInFrequency then
      Resolution(MagValue(t.mag), Ok(FlatSource))
    else if t.template in TemplateFiles && TemplateFiles[t.template].Some? then
      Resolution(MagPath(written),
                 Ok(TemplateSpectrum(Join3(pkgdir, DataDir, TemplateFiles[t.template].value), written)))
    else
      // a name outside the catalog; the flat source is the only name mapped to no file
      Resolution(MagPath(written), Err(KeyError(t.template)))
  }

  /** The `mag_file` a run hands to the calculator: the magnitude itself for the flat source without
      an upload, the temporary magnitude file otherwise (also for a name the catalog lacks). */
  function MagFileOf(t: Target, tmpdir: string): MagFile {
    if t.customInput.None? && t.template == FlatInFrequency then MagValue(t.mag)
    else MagPath(Join(tmpdir, MagFileTemplate))
  }

  /** Whether or not the source resolves, its `mag_file` depends only on the upload, the template name
      and the magnitude. */
  lemma ResolveMagFile(t: Target, pkgdir: string, tmpdir: string)
    ensures Resolve(t, pkgdir, tmpdir).magFile == MagFileOf(t, tmpdir)
  {
  }

  /** A custom upload wins, whatever template is selected. */
  lemma CustomInputWins(t: Target, pkgdir: string, tmpdir: string)
    requires t.customInput.Some?
    ensures Resolve(t, pkgdir, tmpdir).magFile == MagPath(Join(tmpdir, MagFileTemplate))
    ensures Resolve(t, pkgdir, tmpdir).outcome == Ok(CustomSpectrum(t.customInput.value, Join(tmpdir, MagFileTemplate)))
  {
  }

  /** Without an upload, the flat source uses the magnitude itself and writes no file. */
  lemma FlatUsesMagnitude(t: Target, pkgdir: string, tmpdir: string)
    requires t.customInput == None && t.template == FlatInFrequency
    ensures Resolve(t, pkgdir, tmpdir) == Resolution(MagValue(t.mag), Ok(FlatSource))
  {
  }

  /** Any other name gets the temporary magnitude file, and succeeds exactly when it is in the catalog. */
  lemma CatalogTemplate(t: Target, pkgdir: string, tmpdir: string)
    requires t.customInput == None && t.template != FlatInFrequency
    ensures Resolve(t, pkgdir, tmpdir).magFile == MagPath(Join(tmpdir, MagFileTemplate))
    ensures Resolve(t, pkgdir, tmpdir).outcome.Ok? <==> t.template in TemplateFiles
    ensures Resolve(t, pkgdir, tmpdir).outcome.Err? ==> Resolve(t, pkgdir, tmpdir).outcome.error == KeyError(t.template)
  {
    CatalogShape();
  }

  /** Resolution never looks at the previous `mag_file`. */
  lemma ResolveIgnoresMagFile(t: Target, m: MagFile, pkgdir: string, tmpdir: string)
    ensures Resolve(t.(magFile := m), pkgdir, tmpdir) == Resolve(t, pkgdir, tmpdir)
  {
  }

  /** `create_template_spectrum(target, tmpdir)`: sets `target.mag_file` in place and hands back the
      same object. External conversion and normalization are not modelled (see the README). */
  method CreateTemplateSpectrum(target: TargetConf, pkgdir: string, tmpdir: string) returns (r: Result<TargetConf>)
    modifies target
    ensures target.Value() == old(target.Value()).(magFile := Resolve(old(target.Value()), pkgdir, tmpdir).magFile)
    ensures r.Ok? <==> Resolve(old(target.Value()), pkgdir, tmpdir).outcome.Ok?
    ensures r.Ok? ==> r.value == target
    ensures r.Err? ==> r.error == Resolve(old(target.Value()), pkgdir, tmpdir).outcome.error
  {
    var written := Join(tmpdir, MagFileTemplate);
    if target.customInput.Some? {
      target.magFile := MagPath(written);
      return Ok(target);
    }
    if target.template == FlatInFrequency {
      target.magFile := MagValue(target.mag);
      return Ok(target);
    }
    target.magFile := MagPath(written);
    if target.template !in TemplateFiles || TemplateFiles[target.template].None? {
      return Err(KeyError(target.template));
    }
    return Ok(target);
  }

  // ------------------------------------------------ wavelength window

  /** One line of a written magnitude file: wavelength (nm) and AB magnitude. */
  datatype Line = Line(wavelength: real, abMag: real)

  function InWindow(w: real, wmin: real, wmax: real): bool {
    wmin <= w && w <= wmax
  }

  /** The points `wmin <= w <= wmax` of a spectrum, in their original order. */
  function Window(points: seq<Line>, wmin: real, wmax: real): (r: seq<Line>)
    ensures |r| <= |points|
    ensures forall k :: 0 <= k < |r| ==> r[k] in points && InWindow(r[k].wavelength, wmin, wmax)
  {
    if points == [] then []
    else
      var rest := Window(points[1..], wmin, wmax);
      if InWindow(points[0].wavelength, wmin, wmax) then [points[0]] + rest else rest
  }

  /** Selection commutes with concatenation, so it keeps the relative order of the points. */
  lemma {:induction false} WindowAppend(a: seq<Line>, b: seq<Line>, wmin: real, wmax: real)
    ensures Window(a + b, wmin, wmax) == Window(a, wmin, wmax) + Window(b, wmin, wmax)
  {
    if a != [] {
      assert (a + b)[1..] == a[1..] + b;
      WindowAppend(a[1..], b, wmin, wmax);
    } else {
      assert a + b == b;
    }
  }

  /** Every point of the spectrum inside the window is written. */
  lemma {:induction false} WindowComplete(points: seq<Line>, wmin: real, wmax: real, p: Line)
    requires p in points && InWindow(p.wavelength, wmin, wmax)
    ensures p in Window(points, wmin, wmax)
  {
    if points[0] != p {
      WindowComplete(points[1..], wmin, wmax, p);
    }
  }

  /** The write loop of `prepare_spectrum`: one line per selected point, in order. */
  method WriteWindow(points: seq<Line>, wmin: real, wmax: real) returns (lines: seq<Line>)
    ensures lines == Window(points, wmin, wmax)
  {
    var selected := Window(points, wmin, wmax);
    lines := [];
    var i := 0;
    while i < |selected|
      invariant 0 <= i <= |selected|
      invariant lines == selected[..i]
    {
      lines := lines + [selected[i]];
      i := i + 1;
    }
  }
}
