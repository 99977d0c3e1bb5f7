/**
 * The text-extraction front end of the Tika plugin (`getContentStream` and its helpers).
 *
 * A file is either passed through as text, stripped of HTML markup by a native parser, refused
 * because its extension is not supported, or handed to an external Apache Tika worker. Worker
 * output is cached in a temporary area under a name derived from a digest of the file's path, size
 * and modification time, so a second request for an unchanged file is served from the cache.
 *
 * The temporary area is a map from path to contents; the worker, the HTML tokenizer, the digest
 * and the template renderer are inputs. Each call's effects on the temporary area and on the
 * ticketing queue are recorded as `Step`s.
 */
module Tika {
  import opened Optional
  import opened JsString

  // ---------------------------------------------------------------------------------------------
  // Routing
  // ---------------------------------------------------------------------------------------------

  datatype Route = PassThrough | HtmlStrip | Unsupported | External

  /** `path.basename` for a path without a trailing separator: what follows the last `/`. */
  function Basename(fp: string): (b: string)
    ensures '/' !in b && EndsWith(fp, b)
  {
    fp[LastIndexOf(fp, '/') + 1..]
  }

  /** The basename is the whole path when it has no `/`, and otherwise what follows its last `/`. */
  lemma BasenameIsLastSegment(fp: string)
    ensures var b := Basename(fp);
      '/' !in b && (|b| == |fp| || fp[|fp| - |b| - 1] == '/')
      && (|b| == |fp| <==> '/' !in fp)
  {
  }

  /**
   * `path.extname`: from the last dot of the basename to its end; empty when the basename has no
   * dot, starts with its only dot, or is `..`.
   */
  function ExtName(fp: string): (e: string)
    ensures e == [] || (e[0] == '.' && '.' !in e[1..] && '/' !in e && EndsWith(fp, e))
  {
    var b := Basename(fp);
    var i := LastIndexOf(b, '.');
    if i <= 0 || b == ".." then ""
    else
      assert b[i..] == b[|b| - |b[i..]|..];
      assert fp[|fp| - |b[i..]|..] == fp[|fp| - |b|..][i..];
      b[i..]
  }

  /**
   * The extension is non-empty exactly when the basename has a dot after its first character and
   * is not `..`; it is then the basename's tail from its last dot.
   */
  lemma ExtNameNonEmpty(fp: string)
    ensures var b, e := Basename(fp), ExtName(fp);
      && (e != [] <==> b != ".." && exists i :: 0 < i < |b| && b[i] == '.')
      && (e != [] ==> EndsWith(b, e))
  {
    var b, e := Basename(fp), ExtName(fp);
    var i := LastIndexOf(b, '.');
    if e != [] {
      assert b[i..] == b[|b| - |e|..];
    }
  }

  /**
   * The fast-path decision. By operator precedence a `.txt` name is read natively even when Tika
   * is forced; `.text` only when it is not.
   */
  function RouteOf(fp: string, forcetika: bool, htmlLoaded: bool, supported: seq<string>): (r: Route)
    ensures r == PassThrough <==> TextName(fp, forcetika)
    ensures r == HtmlStrip <==> !TextName(fp, forcetika) && HtmlName(fp, forcetika, htmlLoaded)
    ensures r == Unsupported <==> !TextName(fp, forcetika) && !HtmlName(fp, forcetika, htmlLoaded) && ExtName(fp) !in supported
    ensures r == External <==> !TextName(fp, forcetika) && !HtmlName(fp, forcetika, htmlLoaded) && ExtName(fp) in supported
  {
    var lower := Lower(fp);
    if (!forcetika && EndsWith(lower, ".text")) || EndsWith(lower, ".txt") then PassThrough
    else if !forcetika && htmlLoaded && (EndsWith(lower, ".html") || EndsWith(lower, ".htm")) then HtmlStrip
    else if ExtName(fp) !in supported then Unsupported
    else External
  }

  /** A name read natively as text: `.txt` always, `.text` unless Tika is forced. */
  predicate TextName(fp: string, forcetika: bool) {
    EndsWith(Lower(fp), ".txt") || (!forcetika && EndsWith(Lower(fp), ".text"))
  }

  /** A name stripped natively as HTML: `.html` or `.htm`, when Tika is not forced and the parser loaded. */
  predicate HtmlName(fp: string, forcetika: bool, htmlLoaded: bool) {
    !forcetika && htmlLoaded && (EndsWith(Lower(fp), ".html") || EndsWith(Lower(fp), ".htm"))
  }

  /** The message thrown for an unsupported file. */
  function UnsupportedMessage(fp: string): string {
    "Unsupported file " + fp
  }

  // ---------------------------------------------------------------------------------------------
  // Cache slots
  // ---------------------------------------------------------------------------------------------

  /** What is known of the file from `stat`: its size and its modification time in whole milliseconds. */
  datatype Stat = Stat(size: nat, mtimeMs: nat)

  /** The text whose digest names the cache slots of a file. */
  function Fingerprint(fp: string, st: Stat): string {
    fp + "_" + Decimal(st.size) + "_" + Decimal(st.mtimeMs)
  }

  /** Characters appended after the last `c` do not move it when none of them is `c`. */
  lemma {:induction false} LastIndexOfAppend(s: string, c: char, tail: string)
    requires c !in tail
    ensures LastIndexOf(s + tail, c) == LastIndexOf(s, c)
    decreases |tail|
  {
    if tail == [] {
      assert s + tail == s;
    } else {
      var t := s + tail;
      assert t[|t| - 1] == tail[|tail| - 1];
      assert t[..|t| - 1] == s + tail[..|tail| - 1];
      LastIndexOfAppend(s, c, tail[..|tail| - 1]);
    }
  }

  /** In `a _ d` with no `_` in `d`, the last `_` sits right after `a`. */
  lemma LastUnderscore(a: string, d: string)
    requires '_' !in d
    ensures LastIndexOf(a + "_" + d, '_') == |a|
    ensures (a + "_" + d)[..|a|] == a && (a + "_" + d)[|a| + 1..] == d
  {
    LastIndexOfAppend(a + "_", '_', d);
  }

  lemma DecimalNoUnderscore(n: nat)
    ensures '_' !in Decimal(n)
  {
    var d := Decimal(n);
    assert forall i :: 0 <= i < |d| ==> d[i] != '_';
  }

  /**
   * Distinct (path, size, modification time) triples have distinct fingerprints: the size and the
   * time are read back from the end, where they are digit runs separated by `_`.
   */
  lemma FingerprintInjective(fp1: string, st1: Stat, fp2: string, st2: Stat)
    requires Fingerprint(fp1, st1) == Fingerprint(fp2, st2)
    ensures fp1 == fp2 && st1 == st2
  {
    DecimalNoUnderscore(st1.size);
    DecimalNoUnderscore(st2.size);
    DecimalNoUnderscore(st1.mtimeMs);
    DecimalNoUnderscore(st2.mtimeMs);
    var a1, a2 := fp1 + "_" + Decimal(st1.size), fp2 + "_" + Decimal(st2.size);
    LastUnderscore(a1, Decimal(st1.mtimeMs));
    LastUnderscore(a2, Decimal(st2.mtimeMs));
    assert a1 == a2 && Decimal(st1.mtimeMs) == Decimal(st2.mtimeMs);
    LastUnderscore(fp1, Decimal(st1.size));
    LastUnderscore(fp2, Decimal(st2.size));
    DecimalInjective(st1.size, st2.size);
    DecimalInjective(st1.mtimeMs, st2.mtimeMs);
  }

  /** The staged input and the extracted output, each under its cached and its working name. */
  datatype Slots = Slots(finalRead: string, finalWrite: string, workRead: string, workWrite: string)

  function ReadDir(tempDir: string): string { tempDir + "/tika/in/" }
  function WriteDir(tempDir: string): string { tempDir + "/tika/out/" }
  function TempDir(tempDir: string): string { tempDir + "/tika/temp/" }

  /**
   * The slots of one request. The cached names depend only on the digest of the fingerprint and
   * on the basename; the working names on the two clock readings (`Date.now()` is read twice).
   */
  function SlotsFor(tempDir: string, hash: string -> string, fp: string, st: Stat, nowRead: nat, nowWrite: nat): (s: Slots)
    ensures StartsWith(s.finalRead, ReadDir(tempDir)) && StartsWith(s.workRead, ReadDir(tempDir))
    ensures StartsWith(s.finalWrite, WriteDir(tempDir)) && StartsWith(s.workWrite, WriteDir(tempDir))
  {
    var prefix := hash(Fingerprint(fp, st));
    var base := Basename(fp);
    Slots(ReadDir(tempDir) + prefix + "_" + base,
          WriteDir(tempDir) + prefix + "_" + base + ".txt",
          ReadDir(tempDir) + Decimal(nowRead) + "_" + base,
          WriteDir(tempDir) + Decimal(nowWrite) + "_" + base + ".txt")
  }

  /** The input directory, the output directory and the configuration directory are disjoint. */
  lemma DirsDisjoint(tempDir: string, p: string)
    ensures StartsWith(p, ReadDir(tempDir)) ==> !StartsWith(p, WriteDir(tempDir)) && !StartsWith(p, TempDir(tempDir))
    ensures StartsWith(p, WriteDir(tempDir)) ==> !StartsWith(p, TempDir(tempDir))
  {
    var n := |tempDir| + 6;
    assert ReadDir(tempDir)[n] == 'i' && WriteDir(tempDir)[n] == 'o' && TempDir(tempDir)[n] == 't';
    if StartsWith(p, ReadDir(tempDir)) {
      assert p[n] == 'i';
    }
    if StartsWith(p, WriteDir(tempDir)) {
      assert p[n] == 'o';
    }
  }

  // ---------------------------------------------------------------------------------------------
  // Native HTML text extraction
  // ---------------------------------------------------------------------------------------------

  /** The callbacks the HTML tokenizer makes, in document order. */
  datatype HtmlEvent = Text(data: string) | OpenTag(name: string) | CloseTag

  predicate Skippable(name: string) {
    Lower(name) == "style" || Lower(name) == "script"
  }

  /**
   * The text kept from `evs` when the skip flag starts as `skip`: text is kept while the flag is
   * off; every opening tag sets the flag to whether it is a style or script tag, every closing tag
   * clears it.
   */
  function ExtractFrom(evs: seq<HtmlEvent>, skip: bool): string {
    if evs == [] then ""
    else match evs[0]
      case Text(d) => (if skip then "" else d) + ExtractFrom(evs[1..], skip)
      case OpenTag(n) => ExtractFrom(evs[1..], Skippable(n))
      case CloseTag => ExtractFrom(evs[1..], false)
  }

  /** The skip flag after `evs`. */
  function SkipAfter(evs: seq<HtmlEvent>, skip: bool): bool {
    if evs == [] then skip
    else match evs[0]
      case Text(_) => SkipAfter(evs[1..], skip)
      case OpenTag(n) => SkipAfter(evs[1..], Skippable(n))
      case CloseTag => SkipAfter(evs[1..], false)
  }

  /** All the text of a run of text events. */
  function Texts(evs: seq<HtmlEvent>): string
    requires forall i :: 0 <= i < |evs| ==> evs[i].Text?
  {
    if evs == [] then "" else evs[0].data + Texts(evs[1..])
  }

  /** `_getHTMLReadStream`: the text of the document, scanning the tokenizer's events in order. */
  method HtmlReadStream(evs: seq<HtmlEvent>) returns (text: string)
    ensures text == ExtractFrom(evs, false)
  {
    text := "";
    var skip := false;
    var i := 0;
    while i < |evs|
      invariant 0 <= i <= |evs|
      invariant text + ExtractFrom(evs[i..], skip) == ExtractFrom(evs, false)
    {
      assert evs[i..][1..] == evs[i + 1..];
      match evs[i] {
        case Text(d) =>
          if !skip {
            text := text + d;
          }
        case OpenTag(n) =>
          skip := Lower(n) == "style" || Lower(n) == "script";
        case CloseTag =>
          skip := false;
      }
      i := i + 1;
    }
    assert evs[i..] == [];
  }

  /** Extraction is compositional: the second part starts with the flag the first part left. */
  lemma {:induction false} ExtractAppend(a: seq<HtmlEvent>, b: seq<HtmlEvent>, skip: bool)
    ensures ExtractFrom(a + b, skip) == ExtractFrom(a, skip) + ExtractFrom(b, SkipAfter(a, skip))
  {
    if a == [] {
      assert a + b == b;
    } else {
      assert (a + b)[1..] == a[1..] + b;
      match a[0] {
        case Text(d) => ExtractAppend(a[1..], b, skip);
        case OpenTag(n) => ExtractAppend(a[1..], b, Skippable(n));
        case CloseTag => ExtractAppend(a[1..], b, false);
      }
    }
  }

  /** A run of text is kept whole when the flag is off and dropped whole when it is on. */
  lemma {:induction false} TextRun(ts: seq<HtmlEvent>, skip: bool)
    requires forall i :: 0 <= i < |ts| ==> ts[i].Text?
    ensures ExtractFrom(ts, skip) == (if skip then "" else Texts(ts))
    ensures SkipAfter(ts, skip) == skip
  {
    if ts != [] {
      TextRun(ts[1..], skip);
    }
  }

  /**
   * An element holding only text contributes that text unless it is a style or script element,
   * and the flag is off again after its closing tag, whatever came before.
   */
  lemma ElementText(a: seq<HtmlEvent>, name: string, ts: seq<HtmlEvent>, b: seq<HtmlEvent>)
    requires forall i :: 0 <= i < |ts| ==> ts[i].Text?
    ensures ExtractFrom(a + [OpenTag(name)] + ts + [CloseTag] + b, false)
         == ExtractFrom(a, false) + (if Skippable(name) then "" else Texts(ts)) + ExtractFrom(b, false)
  {
    var s := SkipAfter(a, false);
    ExtractAppend(a, [OpenTag(name)] + ts + [CloseTag] + b, false);
    assert a + [OpenTag(name)] + ts + [CloseTag] + b == a + ([OpenTag(name)] + ts + [CloseTag] + b);
    assert ([OpenTag(name)] + ts + [CloseTag] + b)[1..] == ts + ([CloseTag] + b);
    ExtractAppend(ts, [CloseTag] + b, Skippable(name));
    TextRun(ts, Skippable(name));
    assert ([CloseTag] + b)[1..] == b;
  }

  // ---------------------------------------------------------------------------------------------
  // The external worker
  // ---------------------------------------------------------------------------------------------

  /** What the worker process and the output file stream report, in the order the handlers run. */
  datatype WorkerEvent = StdoutData(text: string) | StderrError | Closed | Finished

  /** What a call hands back: a stream of text, an exception, a rejected promise or a promise that never settles. */
  datatype StreamResult = Stream(content: string) | Threw(reason: string) | Rejected | Unsettled

  /**
   * The executor's state: the `resolved` flag, whether the output stream was ended and has emitted
   * `finish`, the text written to the working file, the promise's fate and whether the working file
   * was renamed to its cached name.
   */
  datatype Worker = Worker(resolved: bool, ended: bool, finished: bool, out: string, result: StreamResult, renamed: bool)

  const WorkerStart := Worker(false, false, false, "", Unsettled, false)

  /** One handler run. Data written after the stream ended is not kept; `finish` can only follow the end, once. */
  function WStep(w: Worker, e: WorkerEvent): Worker {
    match e
    case StdoutData(t) => if w.ended then w else w.(out := w.out + t)
    case Closed => w.(ended := true)
    case StderrError => if w.resolved then w.(ended := true) else w.(ended := true, resolved := true, result := Rejected)
    case Finished =>
      if !w.ended || w.finished then w
      else if w.resolved then w.(finished := true)
      else w.(finished := true, resolved := true, renamed := true, result := Stream(w.out))
  }

  function WRun(evs: seq<WorkerEvent>, w: Worker): Worker {
    if evs == [] then w else WRun(evs[1..], WStep(w, evs[0]))
  }

  /**
   * The executor's invariant: the output reaches its cached name exactly when the promise resolved
   * with a stream, and that stream is everything written before the end.
   */
  predicate Coherent(w: Worker) {
    && (w.renamed <==> w.result.Stream?)
    && (w.resolved <==> !w.result.Unsettled?)
    && (w.result.Stream? ==> w.result.content == w.out && w.ended)
    && !w.result.Threw?
  }

  lemma {:induction false} RunCoherent(evs: seq<WorkerEvent>, w: Worker)
    requires Coherent(w)
    ensures Coherent(WRun(evs, w))
  {
    if evs != [] {
      RunCoherent(evs[1..], WStep(w, evs[0]));
    }
  }

  /** Once resolved, the outcome and the cached output never change again. */
  lemma {:induction false} ResolvedIsFinal(evs: seq<WorkerEvent>, w: Worker)
    requires w.resolved
    ensures WRun(evs, w).resolved && WRun(evs, w).result == w.result && WRun(evs, w).renamed == w.renamed
  {
    if evs != [] {
      ResolvedIsFinal(evs[1..], WStep(w, evs[0]));
    }
  }

  lemma {:induction false} RunAppend(a: seq<WorkerEvent>, b: seq<WorkerEvent>, w: Worker)
    ensures WRun(a + b, w) == WRun(b, WRun(a, w))
  {
    if a == [] {
      assert a + b == b;
    } else {
      assert (a + b)[1..] == a[1..] + b;
      RunAppend(a[1..], b, WStep(w, a[0]));
    }
  }

  /** A stderr error before the promise resolved rejects it, and the output is then never renamed into the cache. */
  lemma ErrorBlocksRename(pre: seq<WorkerEvent>, post: seq<WorkerEvent>)
    requires !WRun(pre, WorkerStart).resolved
    ensures var w := WRun(pre + [StderrError] + post, WorkerStart);
      !w.renamed && w.result == Rejected
  {
    var w0 := WRun(pre, WorkerStart);
    RunCoherent(pre, WorkerStart);
    RunAppend(pre, [StderrError] + post, WorkerStart);
    assert pre + [StderrError] + post == pre + ([StderrError] + post);
    assert ([StderrError] + post)[1..] == post;
    ResolvedIsFinal(post, WStep(w0, StderrError));
  }

  /** The executor's handlers, run over the events in order. */
  method RunWorker(evs: seq<WorkerEvent>) returns (w: Worker)
    ensures w == WRun(evs, WorkerStart)
    ensures w.renamed <==> w.result.Stream?
  {
    var resolved, ended, finished, renamed := false, false, false, false;
    var out, result := "", Unsettled;
    var i := 0;
    while i < |evs|
      invariant 0 <= i <= |evs|
      invariant WRun(evs[i..], Worker(resolved, ended, finished, out, result, renamed)) == WRun(evs, WorkerStart)
    {
      assert evs[i..][1..] == evs[i + 1..];
      match evs[i] {
        case StdoutData(t) =>
          if !ended {
            out := out + t;
          }
        case Closed =>
          ended := true;
        case StderrError =>
          ended := true;
          if !resolved {
            resolved, result := true, Rejected;
          }
        case Finished =>
          if ended && !finished {
            finished := true;
            if !resolved {
              resolved, renamed, result := true, true, Stream(out);
            }
          }
      }
      i := i + 1;
    }
    assert evs[i..] == [];
    w := Worker(resolved, ended, finished, out, result, renamed);
    RunCoherent(evs, WorkerStart);
  }

  // ---------------------------------------------------------------------------------------------
  // Worker configuration
  // ---------------------------------------------------------------------------------------------

  /** The values rendered into the worker's configuration template. */
  datatype OcrData = OcrData(tesseractPath: string, tesseractDatapath: string, languages: string)
  datatype ConfigData = ConfigData(maxContentLength: int, ocr: Option<OcrData>)

  /**
   * The plugin configuration: temporary root, supported extensions, whether the HTML tokenizer
   * loaded, OCR settings with the language bundles in key order, and the digest and template
   * renderer used.
   */
  datatype Conf = Conf(tempDir: string, supported: seq<string>, htmlLoaded: bool, alwaysOcr: bool,
                       bundles: seq<(string, string)>, maxContentLength: int,
                       tesseractPath: string, tesseractDatapath: string,
                       hash: string -> string, render: ConfigData -> string)

  /** The marker a file name carries to ask for bundle `key`. */
  function BundleMarker(key: string): string {
    ".ocr." + key + "."
  }

  /** The value of the first bundle whose marker the lower-cased basename contains. */
  function PreferredLanguage(lowerBase: string, bundles: seq<(string, string)>): (r: Option<string>)
    ensures r.None? <==> forall j :: 0 <= j < |bundles| ==> !Contains(lowerBase, BundleMarker(bundles[j].0))
    ensures r.Some? ==> exists i :: 0 <= i < |bundles| && Contains(lowerBase, BundleMarker(bundles[i].0))
                                    && r.value == bundles[i].1
                                    && forall j :: 0 <= j < i ==> !Contains(lowerBase, BundleMarker(bundles[j].0))
  {
    if bundles == [] then None
    else if Contains(lowerBase, BundleMarker(bundles[0].0)) then Some(bundles[0].1)
    else
      var r := PreferredLanguage(lowerBase, bundles[1..]);
      assert forall j :: 1 <= j < |bundles| ==> bundles[j] == bundles[1..][j - 1];
      if r.Some? then
        var i :| 0 <= i < |bundles[1..]| && Contains(lowerBase, BundleMarker(bundles[1..][i].0))
                 && r.value == bundles[1..][i].1
                 && forall j :: 0 <= j < i ==> !Contains(lowerBase, BundleMarker(bundles[1..][j].0));
        assert forall j :: 0 <= j < i + 1 ==> !Contains(lowerBase, BundleMarker(bundles[j].0));
        r
      else r
  }

  function BundleValues(bundles: seq<(string, string)>): (vs: seq<string>)
    ensures |vs| == |bundles| && forall i :: 0 <= i < |bundles| ==> vs[i] == bundles[i].1
  {
    seq(|bundles|, i requires 0 <= i < |bundles| => bundles[i].1)
  }

  /** Whether the file is to be OCR'd: always, or when its lower-cased basename contains `.ocr.`. */
  predicate OcrThisFile(conf: Conf, base: string) {
    conf.alwaysOcr || Contains(Lower(base), ".ocr.")
  }

  /** The OCR languages: the preferred bundle when it names one, else every bundle joined by `+`. */
  function OcrLanguages(conf: Conf, base: string): string {
    var preferred := PreferredLanguage(Lower(base), conf.bundles);
    if preferred.Some? && preferred.value != "" then preferred.value else Join(BundleValues(conf.bundles), "+")
  }

  /**
   * `_getTikaConfig`: the configuration file's name and the values rendered into it. A file not
   * OCR'd has no languages, which the name spells `undefined`; the `noocrlang` fallback applies to
   * the whole concatenation, which is never empty.
   */
  function ConfigFor(conf: Conf, base: string): (r: (string, ConfigData))
    ensures r.1.ocr.Some? <==> OcrThisFile(conf, base)
    ensures r.1.ocr.Some? ==> r.1.ocr.value.languages == OcrLanguages(conf, base)
    ensures StartsWith(r.0, TempDir(conf.tempDir) + (if OcrThisFile(conf, base) then "ocr_" else "noocr_"))
    ensures OcrThisFile(conf, base) ==> r.0 == TempDir(conf.tempDir) + "ocr_" + OcrLanguages(conf, base) + "_tikaconfig.xml"
    ensures !OcrThisFile(conf, base) ==> r.0 == TempDir(conf.tempDir) + "noocr_undefined_tikaconfig.xml"
  {
    var ocr := OcrThisFile(conf, base);
    var languages := if ocr then Some(OcrLanguages(conf, base)) else None;
    var data := ConfigData(conf.maxContentLength,
                           if ocr then Some(OcrData(conf.tesseractPath, conf.tesseractDatapath, languages.value)) else None);
    var joined := (if ocr then "ocr" else "noocr") + "_" + languages.GetOr("undefined");
    var prefix := if joined != "" then joined else "noocrlang";
    var name := TempDir(conf.tempDir) + prefix + "_tikaconfig.xml";
    assert name[..|TempDir(conf.tempDir) + (if ocr then "ocr_" else "noocr_")|]
        == TempDir(conf.tempDir) + (if ocr then "ocr_" else "noocr_");
    assert ocr ==> joined == "ocr_" + OcrLanguages(conf, base) && prefix == joined;
    (name, data)
  }

  /** The loop over the bundle keys that stops at the first marker found. */
  method PreferredBundle(lowerBase: string, bundles: seq<(string, string)>) returns (lang: Option<string>)
    ensures lang == PreferredLanguage(lowerBase, bundles)
  {
    lang := None;
    var i := 0;
    while i < |bundles|
      invariant 0 <= i <= |bundles|
      invariant PreferredLanguage(lowerBase, bundles[i..]) == PreferredLanguage(lowerBase, bundles)
    {
      assert bundles[i..][1..] == bundles[i + 1..];
      if Contains(lowerBase, ".ocr." + bundles[i].0 + ".") {
        lang := Some(bundles[i].1);
        return;
      }
      i := i + 1;
    }
  }

  // ---------------------------------------------------------------------------------------------
  // getContentStream
  // ---------------------------------------------------------------------------------------------

  /** What a call did to the temporary area and the ticketing queue. */
  datatype Step = CopyInput(to: string) | RenameFile(from: string, to: string) | TicketRequested
                | ConfigWritten(name: string) | WorkerSpawned(input: string)

  datatype Outcome = Outcome(result: StreamResult, files: map<string, string>, steps: seq<Step>)

  /** `fs.rename`: the contents move to the new name and the old name disappears. */
  function Rename(files: map<string, string>, from: string, to: string): (r: map<string, string>)
    requires from in files
    ensures to in r && r[to] == files[from]
    ensures forall p :: p != from && p != to ==> (p in r <==> p in files) && (p in r ==> r[p] == files[p])
  {
    (files - {from})[to := files[from]]
  }

  /** Staging the input under its cached name, unless it is there already. */
  function Stage(files: map<string, string>, input: string, s: Slots): (map<string, string>, seq<Step>) {
    if s.finalRead in files then (files, [])
    else (Rename(files[s.workRead := input], s.workRead, s.finalRead), [CopyInput(s.workRead), RenameFile(s.workRead, s.finalRead)])
  }

  /**
   * The ticketed part of a cache miss: the working output file is created, a ticket requested,
   * the configuration written and the worker spawned on the staged input. When the worker cannot be
   * spawned, the catch block rejects with an undeclared variable, so the promise never settles.
   */
  function Tikafy(conf: Conf, files: map<string, string>, s: Slots, base: string, spawnFails: bool,
                  events: seq<WorkerEvent>): Outcome
  {
    var (cfgName, cfgData) := ConfigFor(conf, base);
    var configured := files[s.workWrite := ""][cfgName := conf.render(cfgData)];
    var pre := [TicketRequested, ConfigWritten(cfgName)];
    if spawnFails then Outcome(Unsettled, configured, pre)
    else
      var w := WRun(events, WorkerStart);
      var written := configured[s.workWrite := w.out];
      if w.renamed then
        Outcome(w.result, Rename(written, s.workWrite, s.finalWrite),
                pre + [WorkerSpawned(s.finalRead), RenameFile(s.workWrite, s.finalWrite)])
      else Outcome(w.result, written, pre + [WorkerSpawned(s.finalRead)])
  }

  /**
   * A file for the external worker: which cached files exist is decided before anything is
   * staged; a cached output is returned as it is, otherwise the worker runs under a ticket.
   */
  function ExternalExtract(conf: Conf, files: map<string, string>, input: string, fp: string, st: Stat,
                           nowRead: nat, nowWrite: nat, spawnFails: bool, events: seq<WorkerEvent>): Outcome
  {
    var s := SlotsFor(conf.tempDir, conf.hash, fp, st, nowRead, nowWrite);
    var (staged, stageSteps) := Stage(files, input, s);
    if s.finalWrite in files then Outcome(Stream(files[s.finalWrite]), staged, stageSteps)
    else
      var o := Tikafy(conf, staged, s, Basename(fp), spawnFails, events);
      Outcome(o.result, o.files, stageSteps + o.steps)
  }

  /**
   * One call of `getContentStream`, given the contents of the input stream, the tokenizer's events
   * for it, the file's `stat`, the two clock readings, whether spawning the worker fails and the
   * worker's events.
   */
  function Extract(conf: Conf, files: map<string, string>, input: string, fp: string, forcetika: bool, st: Stat,
                   nowRead: nat, nowWrite: nat, html: seq<HtmlEvent>, spawnFails: bool, events: seq<WorkerEvent>): Outcome
  {
    match RouteOf(fp, forcetika, conf.htmlLoaded, conf.supported)
    case PassThrough => Outcome(Stream(input), files, [])
    case HtmlStrip => Outcome(Stream(ExtractFrom(html, false)), files, [])
    case Unsupported => Outcome(Threw(UnsupportedMessage(fp)), files, [])
    case External => ExternalExtract(conf, files, input, fp, st, nowRead, nowWrite, spawnFails, events)
  }

  /** The configuration file lives in the configuration directory. */
  lemma ConfigInTempDir(conf: Conf, base: string)
    ensures StartsWith(ConfigFor(conf, base).0, TempDir(conf.tempDir))
  {
    var name := ConfigFor(conf, base).0;
    var longer := TempDir(conf.tempDir) + (if OcrThisFile(conf, base) then "ocr_" else "noocr_");
    assert name[..|TempDir(conf.tempDir)|] == name[..|longer|][..|TempDir(conf.tempDir)|];
  }

  /**
   * The ticketed part touches only the working output, the configuration file and the cached
   * output; it copies nothing and renames only into the cached output.
   */
  lemma TikafyFrame(conf: Conf, files: map<string, string>, s: Slots, base: string, spawnFails: bool,
                    events: seq<WorkerEvent>, p: string)
    requires p != s.workWrite && p != s.finalWrite && p != ConfigFor(conf, base).0
    ensures var o := Tikafy(conf, files, s, base, spawnFails, events);
      && (p in o.files <==> p in files) && (p in files ==> o.files[p] == files[p])
      && forall i :: 0 <= i < |o.steps| ==> !o.steps[i].CopyInput? && (o.steps[i].RenameFile? ==> o.steps[i].to == s.finalWrite)
  {
  }

  /**
   * The fast paths and the refusal touch no file and request no ticket; a plain-text name returns
   * the input, an HTML name its stripped text, and an unsupported one throws.
   */
  lemma FastPathsTouchNothing(conf: Conf, files: map<string, string>, input: string, fp: string, forcetika: bool, st: Stat,
                              nowRead: nat, nowWrite: nat, html: seq<HtmlEvent>, spawnFails: bool, events: seq<WorkerEvent>)
    requires RouteOf(fp, forcetika, conf.htmlLoaded, conf.supported) != External
    ensures var o := Extract(conf, files, input, fp, forcetika, st, nowRead, nowWrite, html, spawnFails, events);
      && o.files == files && o.steps == []
      && (EndsWith(Lower(fp), ".txt") ==> o.result == Stream(input))
      && (RouteOf(fp, forcetika, conf.htmlLoaded, conf.supported) == PassThrough ==> o.result == Stream(input))
      && (RouteOf(fp, forcetika, conf.htmlLoaded, conf.supported) == HtmlStrip ==> o.result == Stream(ExtractFrom(html, false)))
      && (ExtName(fp) !in conf.supported && !o.result.Stream? ==> o.result == Threw(UnsupportedMessage(fp)))
  {
    var r := RouteOf(fp, forcetika, conf.htmlLoaded, conf.supported);
    var o := Extract(conf, files, input, fp, forcetika, st, nowRead, nowWrite, html, spawnFails, events);
    assert o.files == files && o.steps == [];
    if EndsWith(Lower(fp), ".txt") {
      assert r == PassThrough;
    }
    if !o.result.Stream? {
      assert r == Unsupported;
    }
  }

  /** Staging touches only the input directory, and only the cached name of the input keeps what it wrote. */
  lemma StageFrame(files: map<string, string>, input: string, s: Slots, tempDir: string, p: string)
    requires StartsWith(s.finalRead, ReadDir(tempDir)) && StartsWith(s.workRead, ReadDir(tempDir))
    requires !StartsWith(p, ReadDir(tempDir))
    ensures var (staged, _) := Stage(files, input, s);
      (p in staged <==> p in files) && (p in files ==> staged[p] == files[p])
  {
    assert p != s.finalRead && p != s.workRead;
  }

  /**
   * Cache hit: when the extracted text is already cached, it is returned and no ticket is
   * requested; the cached text itself is untouched.
   */
  lemma CacheHit(conf: Conf, files: map<string, string>, input: string, fp: string, forcetika: bool, st: Stat,
                 nowRead: nat, nowWrite: nat, html: seq<HtmlEvent>, spawnFails: bool, events: seq<WorkerEvent>)
    requires RouteOf(fp, forcetika, conf.htmlLoaded, conf.supported) == External
    requires SlotsFor(conf.tempDir, conf.hash, fp, st, nowRead, nowWrite).finalWrite in files
    ensures var s := SlotsFor(conf.tempDir, conf.hash, fp, st, nowRead, nowWrite);
      var o := Extract(conf, files, input, fp, forcetika, st, nowRead, nowWrite, html, spawnFails, events);
      && o.result == Stream(files[s.finalWrite])
      && TicketRequested !in o.steps
      && s.finalWrite in o.files && o.files[s.finalWrite] == files[s.finalWrite]
  {
    ExternalRoute(conf, files, input, fp, forcetika, st, nowRead, nowWrite, html, spawnFails, events);
    ExternalCacheHit(conf, files, input, fp, st, nowRead, nowWrite, spawnFails, events);
  }

  /** On the external route, a call is the cache check, the staging and the ticketed run. */
  lemma ExternalRoute(conf: Conf, files: map<string, string>, input: string, fp: string, forcetika: bool, st: Stat,
                      nowRead: nat, nowWrite: nat, html: seq<HtmlEvent>, spawnFails: bool, events: seq<WorkerEvent>)
    requires RouteOf(fp, forcetika, conf.htmlLoaded, conf.supported) == External
    ensures Extract(conf, files, input, fp, forcetika, st, nowRead, nowWrite, html, spawnFails, events)
         == ExternalExtract(conf, files, input, fp, st, nowRead, nowWrite, spawnFails, events)
  {
  }

  /** The cache hit on the external route alone. */
  lemma ExternalCacheHit(conf: Conf, files: map<string, string>, input: string, fp: string, st: Stat,
                         nowRead: nat, nowWrite: nat, spawnFails: bool, events: seq<WorkerEvent>)
    requires SlotsFor(conf.tempDir, conf.hash, fp, st, nowRead, nowWrite).finalWrite in files
    ensures var s := SlotsFor(conf.tempDir, conf.hash, fp, st, nowRead, nowWrite);
      var o := ExternalExtract(conf, files, input, fp, st, nowRead, nowWrite, spawnFails, events);
      && o.result == Stream(files[s.finalWrite])
      && TicketRequested !in o.steps
      && s.finalWrite in o.files && o.files[s.finalWrite] == files[s.finalWrite]
  {
    var s := SlotsFor(conf.tempDir, conf.hash, fp, st, nowRead, nowWrite);
    var (staged, stageSteps) := Stage(files, input, s);
    DirsDisjoint(conf.tempDir, s.finalWrite);
    StageFrame(files, input, s, conf.tempDir, s.finalWrite);
    assert ExternalExtract(conf, files, input, fp, st, nowRead, nowWrite, spawnFails, events)
        == Outcome(Stream(files[s.finalWrite]), staged, stageSteps);
  }

  /** An input already staged is neither copied nor renamed again, and its staged copy is kept. */
  lemma StagedInputKept(conf: Conf, files: map<string, string>, input: string, fp: string, forcetika: bool, st: Stat,
                        nowRead: nat, nowWrite: nat, html: seq<HtmlEvent>, spawnFails: bool, events: seq<WorkerEvent>)
    requires RouteOf(fp, forcetika, conf.htmlLoaded, conf.supported) == External
    requires SlotsFor(conf.tempDir, conf.hash, fp, st, nowRead, nowWrite).finalRead in files
    ensures var s := SlotsFor(conf.tempDir, conf.hash, fp, st, nowRead, nowWrite);
      var o := Extract(conf, files, input, fp, forcetika, st, nowRead, nowWrite, html, spawnFails, events);
      && (forall i :: 0 <= i < |o.steps| ==> !o.steps[i].CopyInput? && (o.steps[i].RenameFile? ==> o.steps[i].to == s.finalWrite))
      && s.finalRead in o.files && o.files[s.finalRead] == files[s.finalRead]
  {
    ExternalRoute(conf, files, input, fp, forcetika, st, nowRead, nowWrite, html, spawnFails, events);
    var s := SlotsFor(conf.tempDir, conf.hash, fp, st, nowRead, nowWrite);
    var base := Basename(fp);
    DirsDisjoint(conf.tempDir, s.finalRead);
    ConfigInTempDir(conf, base);
    assert Stage(files, input, s) == (files, []);
    if s.finalWrite !in files {
      TikafyFrame(conf, files, s, base, spawnFails, events, s.finalRead);
      var o := Tikafy(conf, files, s, base, spawnFails, events);
      assert [] + o.steps == o.steps;
      assert ExternalExtract(conf, files, input, fp, st, nowRead, nowWrite, spawnFails, events)
          == Outcome(o.result, o.files, o.steps);
    } else {
      assert ExternalExtract(conf, files, input, fp, st, nowRead, nowWrite, spawnFails, events)
          == Outcome(Stream(files[s.finalWrite]), files, []);
    }
  }

  /**
   * On a cache miss the extracted text appears under its cached name exactly when the worker's
   * promise resolved with a stream, by renaming the working file, and holds that stream's text.
   * (The working and cached output names differ whenever the clock reading is not the digest.)
   */
  lemma CachedOnlyOnCleanFinish(conf: Conf, files: map<string, string>, input: string, fp: string, forcetika: bool, st: Stat,
                                nowRead: nat, nowWrite: nat, html: seq<HtmlEvent>, spawnFails: bool, events: seq<WorkerEvent>)
    requires RouteOf(fp, forcetika, conf.htmlLoaded, conf.supported) == External
    requires SlotsFor(conf.tempDir, conf.hash, fp, st, nowRead, nowWrite).finalWrite !in files
    requires SlotsFor(conf.tempDir, conf.hash, fp, st, nowRead, nowWrite).workWrite
          != SlotsFor(conf.tempDir, conf.hash, fp, st, nowRead, nowWrite).finalWrite
    ensures var s := SlotsFor(conf.tempDir, conf.hash, fp, st, nowRead, nowWrite);
      var o := Extract(conf, files, input, fp, forcetika, st, nowRead, nowWrite, html, spawnFails, events);
      && TicketRequested in o.steps
      && (s.finalWrite in o.files <==> o.result.Stream?)
      && (o.result.Stream? ==> o.files[s.finalWrite] == o.result.content
                               && o.steps[|o.steps| - 1] == RenameFile(s.workWrite, s.finalWrite))
  {
    var s := SlotsFor(conf.tempDir, conf.hash, fp, st, nowRead, nowWrite);
    var (staged, stageSteps) := Stage(files, input, s);
    DirsDisjoint(conf.tempDir, s.finalWrite);
    StageFrame(files, input, s, conf.tempDir, s.finalWrite);
    assert s.finalWrite !in staged;
    var cfgName := ConfigFor(conf, Basename(fp)).0;
    ConfigInTempDir(conf, Basename(fp));
    DirsDisjoint(conf.tempDir, cfgName);
    TikafyOutcome(conf, staged, s, Basename(fp), spawnFails, events);
    var o := Tikafy(conf, staged, s, Basename(fp), spawnFails, events);
    assert Extract(conf, files, input, fp, forcetika, st, nowRead, nowWrite, html, spawnFails, events)
        == Outcome(o.result, o.files, stageSteps + o.steps);
    assert (stageSteps + o.steps)[|stageSteps|] == TicketRequested;
  }

  /**
   * The ticketed part on its own: it requests a ticket first, and the cached output appears exactly
   * when the worker resolved with a stream, holding that text, by a final rename.
   */
  lemma TikafyOutcome(conf: Conf, files: map<string, string>, s: Slots, base: string, spawnFails: bool, events: seq<WorkerEvent>)
    requires s.finalWrite !in files && s.workWrite != s.finalWrite && ConfigFor(conf, base).0 != s.finalWrite
    ensures var o := Tikafy(conf, files, s, base, spawnFails, events);
      && |o.steps| > 0 && o.steps[0] == TicketRequested
      && (s.finalWrite in o.files <==> o.result.Stream?)
      && (o.result.Stream? ==> o.files[s.finalWrite] == o.result.content
                               && o.steps[|o.steps| - 1] == RenameFile(s.workWrite, s.finalWrite))
  {
    RunCoherent(events, WorkerStart);
  }

  /**
   * A second request for an unchanged file after one that produced a stream through the worker or
   * the cache is served from the cache with the same text, whatever the clock, input or worker
   * then do, and requests no ticket.
   */
  lemma SecondCallHitsCache(conf: Conf, files: map<string, string>, input: string, fp: string, forcetika: bool, st: Stat,
                            nowRead: nat, nowWrite: nat, html: seq<HtmlEvent>, spawnFails: bool, events: seq<WorkerEvent>,
                            input2: string, nowRead2: nat, nowWrite2: nat, html2: seq<HtmlEvent>, spawnFails2: bool,
                            events2: seq<WorkerEvent>)
    requires RouteOf(fp, forcetika, conf.htmlLoaded, conf.supported) == External
    requires SlotsFor(conf.tempDir, conf.hash, fp, st, nowRead, nowWrite).workWrite
          != SlotsFor(conf.tempDir, conf.hash, fp, st, nowRead, nowWrite).finalWrite
    requires Extract(conf, files, input, fp, forcetika, st, nowRead, nowWrite, html, spawnFails, events).result.Stream?
    ensures var o := Extract(conf, files, input, fp, forcetika, st, nowRead, nowWrite, html, spawnFails, events);
      var o2 := Extract(conf, o.files, input2, fp, forcetika, st, nowRead2, nowWrite2, html2, spawnFails2, events2);
      o2.result == o.result && TicketRequested !in o2.steps
  {
    var s := SlotsFor(conf.tempDir, conf.hash, fp, st, nowRead, nowWrite);
    var s2 := SlotsFor(conf.tempDir, conf.hash, fp, st, nowRead2, nowWrite2);
    assert s2.finalWrite == s.finalWrite;
    var o := Extract(conf, files, input, fp, forcetika, st, nowRead, nowWrite, html, spawnFails, events);
    if s.finalWrite in files {
      CacheHit(conf, files, input, fp, forcetika, st, nowRead, nowWrite, html, spawnFails, events);
    } else {
      CachedOnlyOnCleanFinish(conf, files, input, fp, forcetika, st, nowRead, nowWrite, html, spawnFails, events);
    }
    CacheHit(conf, o.files, input2, fp, forcetika, st, nowRead2, nowWrite2, html2, spawnFails2, events2);
  }

  /** The plugin's temporary area and the record of what its calls did. */
  class Extractor {
    const conf: Conf
    var files: map<string, string>
    var trace: seq<Step>

    constructor (conf: Conf, files: map<string, string>)
      ensures this.conf == conf && this.files == files && trace == []
    {
      this.conf := conf;
      this.files := files;
      trace := [];
    }

    /** `_getTikaConfig`: renders the configuration for a basename and writes it to its file. */
    method WriteTikaConfig(base: string) returns (name: string)
      modifies this
      ensures name == ConfigFor(conf, base).0
      ensures files == old(files)[name := conf.render(ConfigFor(conf, base).1)]
      ensures trace == old(trace) + [ConfigWritten(name)]
    {
      var lowerBase := Lower(base);
      var ocr := conf.alwaysOcr || Contains(lowerBase, ".ocr.");
      var preferred: Option<string> := None;
      if ocr {
        preferred := PreferredBundle(lowerBase, conf.bundles);
      }
      var languages: Option<string> := None;
      if ocr {
        if preferred.Some? && preferred.value != "" {
          languages := preferred;
        } else {
          languages := Some(Join(BundleValues(conf.bundles), "+"));
        }
      }
      var ocrData: Option<OcrData> := None;
      if ocr {
        ocrData := Some(OcrData(conf.tesseractPath, conf.tesseractDatapath, languages.value));
      }
      var data := ConfigData(conf.maxContentLength, ocrData);
      var joined := (if ocr then "ocr" else "noocr") + "_" + languages.GetOr("undefined");
      var prefix := if joined != "" then joined else "noocrlang";
      name := TempDir(conf.tempDir) + prefix + "_tikaconfig.xml";
      files := files[name := conf.render(data)];
      trace := trace + [ConfigWritten(name)];
    }

    /** `getContentStream`, with the effects on the temporary area made in the order the code makes them. */
    method GetContentStream(input: string, fp: string, forcetika: bool, st: Stat, nowRead: nat, nowWrite: nat,
                            html: seq<HtmlEvent>, spawnFails: bool, events: seq<WorkerEvent>) returns (r: StreamResult)
      modifies this
      ensures var o := Extract(conf, old(files), input, fp, forcetika, st, nowRead, nowWrite, html, spawnFails, events);
        r == o.result && files == o.files && trace == old(trace) + o.steps
    {
      var lower := Lower(fp);
      if (!forcetika && EndsWith(lower, ".text")) || EndsWith(lower, ".txt") {
        return Stream(input);
      }
      if !forcetika && conf.htmlLoaded && (EndsWith(lower, ".html") || EndsWith(lower, ".htm")) {
        var text := HtmlReadStream(html);
        return Stream(text);
      }
      if ExtName(fp) !in conf.supported {
        return Threw(UnsupportedMessage(fp));
      }
      r := ExtractExternal(input, fp, st, nowRead, nowWrite, spawnFails, events);
    }

    /** A file for the external worker: the cache check, the staging and the ticketed run. */
    method ExtractExternal(input: string, fp: string, st: Stat, nowRead: nat, nowWrite: nat,
                           spawnFails: bool, events: seq<WorkerEvent>) returns (r: StreamResult)
      modifies this
      ensures var o := ExternalExtract(conf, old(files), input, fp, st, nowRead, nowWrite, spawnFails, events);
        r == o.result && files == o.files && trace == old(trace) + o.steps
    {
      var s := SlotsFor(conf.tempDir, conf.hash, fp, st, nowRead, nowWrite);
      var base := Basename(fp);
      ghost var before := files;
      var alreadyExtracted := s.finalWrite in files;
      var cached := if alreadyExtracted then files[s.finalWrite] else "";
      StageInput(input, s);
      ghost var staged := Stage(before, input, s);
      if alreadyExtracted {
        assert ExternalExtract(conf, before, input, fp, st, nowRead, nowWrite, spawnFails, events)
            == Outcome(Stream(cached), staged.0, staged.1);
        return Stream(cached);
      }
      r := Ticketed(s, base, spawnFails, events);
      ghost var o := Tikafy(conf, staged.0, s, base, spawnFails, events);
      assert ExternalExtract(conf, before, input, fp, st, nowRead, nowWrite, spawnFails, events)
          == Outcome(o.result, o.files, staged.1 + o.steps);
    }

    /** Copies the input to its working name and renames it to its cached name, unless it is cached already. */
    method StageInput(input: string, s: Slots)
      modifies this
      ensures files == Stage(old(files), input, s).0 && trace == old(trace) + Stage(old(files), input, s).1
    {
      if s.finalRead !in files {
        files := files[s.workRead := input];
        trace := trace + [CopyInput(s.workRead)];
        files := Rename(files, s.workRead, s.finalRead);
        trace := trace + [RenameFile(s.workRead, s.finalRead)];
      }
    }

    /** The executor run under a ticket: configure, spawn, collect the output and publish it under its cached name. */
    method Ticketed(s: Slots, base: string, spawnFails: bool, events: seq<WorkerEvent>) returns (r: StreamResult)
      modifies this
      ensures var o := Tikafy(conf, old(files), s, base, spawnFails, events);
        r == o.result && files == o.files && trace == old(trace) + o.steps
    {
      files := files[s.workWrite := ""];
      trace := trace + [TicketRequested];
      var cfgName := WriteTikaConfig(base);
      if spawnFails {
        return Unsettled;
      }
      trace := trace + [WorkerSpawned(s.finalRead)];
      var w := RunWorker(events);
      files := files[s.workWrite := w.out];
      if w.renamed {
        files := Rename(files, s.workWrite, s.finalWrite);
        trace := trace + [RenameFile(s.workWrite, s.finalWrite)];
      }
      r := w.result;
    }
  }
}
