/**
 * The AI utility caches: prompt files cached in memory (revalidated by modification time in debug
 * mode), AI model configurations with inheritance and caller overrides, and the per-user quota
 * looked up in a quota file.
 *
 * The disk is an input: the prompt files, the parsed model configuration file and the parsed
 * quota file are parameters of each call.
 */
module AiUtils {
  import opened Optional
  import opened Messages

  // ---------------------------------------------------------------------------------------------
  // getPrompt
  // ---------------------------------------------------------------------------------------------

  /** A prompt file on disk: its text and its modification time. */
  datatype PromptFile = PromptFile(text: string, mtimeMs: int)

  /** `PROMPT_CACHE` and `modified_times`, keyed by resolved path. */
  datatype PromptState = PromptState(cache: map<string, string>, mtimes: map<string, int>)

  /** A modification time is only recorded together with the text read at that time. */
  predicate Coherent(st: PromptState) {
    st.mtimes.Keys <= st.cache.Keys
  }

  /** What one call returned (`None` when it threw), the caches afterwards, and how many times it read the file. */
  datatype PromptCall = PromptCall(result: Option<string>, state: PromptState, fileReads: nat)

  /**
   * `getPrompt` for the resolved path `p`. Outside debug mode a non-empty cached text is returned
   * without touching the disk. In debug mode the file's modification time is read first (which
   * throws for a missing file): when it equals the recorded one the cached text is returned,
   * otherwise the file is read and the time recorded. An empty text is falsy and read again.
   */
  function PromptSpec(debug: bool, st: PromptState, p: string, disk: map<string, PromptFile>): (c: PromptCall)
    requires Coherent(st)
    ensures Coherent(c.state)
    ensures c.result.Some? && c.fileReads > 0 ==> p in disk && c.result.value == disk[p].text
    ensures c.result.Some? ==> p in c.state.cache && c.state.cache[p] == c.result.value
    ensures c.fileReads == 0 ==> c.state == st
    ensures !debug ==> c.state.mtimes == st.mtimes
  {
    if debug then
      if p !in disk then PromptCall(None, st, 0)
      else if p in st.mtimes && st.mtimes[p] == disk[p].mtimeMs then PromptCall(Some(st.cache[p]), st, 0)
      else
        var st1 := PromptState(st.cache[p := disk[p].text], st.mtimes[p := disk[p].mtimeMs]);
        PromptCall(Some(disk[p].text), st1, if disk[p].text == "" then 2 else 1)
    else if p in st.cache && st.cache[p] != "" then PromptCall(Some(st.cache[p]), st, 0)
    else if p !in disk then PromptCall(None, st, 0)
    else PromptCall(Some(disk[p].text), st.(cache := st.cache[p := disk[p].text]), 1)
  }

  /**
   * Outside debug mode a prompt is read at most once: after a call that returned a non-empty
   * text, the next call returns the same text without reading, whatever the disk holds by then.
   */
  lemma PromptReadOnce(st: PromptState, p: string, disk: map<string, PromptFile>, disk2: map<string, PromptFile>)
    requires Coherent(st)
    requires PromptSpec(false, st, p, disk).result.Some? && PromptSpec(false, st, p, disk).result.value != ""
    ensures var c := PromptSpec(false, st, p, disk);
      var c2 := PromptSpec(false, c.state, p, disk2);
      c2.result == c.result && c2.fileReads == 0 && c2.state == c.state
  {
  }

  /**
   * In debug mode the cached text is returned without reading exactly when the file's
   * modification time equals the one recorded; afterwards the recorded time is the file's.
   */
  lemma DebugRevalidates(st: PromptState, p: string, disk: map<string, PromptFile>)
    requires Coherent(st) && p in disk
    ensures var c := PromptSpec(true, st, p, disk);
      && (c.fileReads == 0 <==> p in st.mtimes && st.mtimes[p] == disk[p].mtimeMs)
      && p in c.state.mtimes && c.state.mtimes[p] == disk[p].mtimeMs
      && c.result.Some?
  {
  }

  /**
   * Outside debug mode a prompt not yet cached (or cached empty) is read from disk when the file
   * exists, and its text returned and cached.
   */
  lemma PromptFirstRead(st: PromptState, p: string, disk: map<string, PromptFile>)
    requires Coherent(st) && p in disk && !(p in st.cache && st.cache[p] != "")
    ensures var c := PromptSpec(false, st, p, disk);
      c.result == Some(disk[p].text) && c.fileReads == 1 && c.state.cache == st.cache[p := disk[p].text]
  {
  }

  /** The prompt cache of the process. */
  class PromptCache {
    const debug: bool
    var cache: map<string, string>
    var mtimes: map<string, int>
    var fileReads: nat

    predicate Valid()
      reads this
    {
      mtimes.Keys <= cache.Keys
    }

    constructor (debug: bool)
      ensures Valid() && this.debug == debug && cache == map[] && mtimes == map[] && fileReads == 0
    {
      this.debug := debug;
      cache := map[];
      mtimes := map[];
      fileReads := 0;
    }

    /** `getPrompt`; `resolve` is `path.resolve`. */
    method GetPrompt(promptFile: string, resolve: string -> string, disk: map<string, PromptFile>) returns (r: Option<string>)
      requires Valid()
      modifies this
      ensures Valid()
      ensures var c := PromptSpec(debug, PromptState(old(cache), old(mtimes)), resolve(promptFile), disk);
        r == c.result && PromptState(cache, mtimes) == c.state && fileReads == old(fileReads) + c.fileReads
    {
      var p := resolve(promptFile);
      if debug {
        if p !in disk {
          return None;
        }
        var lastModTime := disk[p].mtimeMs;
        if p in mtimes && lastModTime == mtimes[p] {
          return Some(cache[p]);
        }
        cache := cache[p := disk[p].text];
        fileReads := fileReads + 1;
        mtimes := mtimes[p := lastModTime];
      }
      if !(p in cache && cache[p] != "") {
        if p !in disk {
          return None;
        }
        cache := cache[p := disk[p].text];
        fileReads := fileReads + 1;
      }
      r := Some(cache[p]);
    }
  }

  // ---------------------------------------------------------------------------------------------
  // getAIModel
  // ---------------------------------------------------------------------------------------------

  /** A configuration value; only string values are told apart. */
  datatype Json = JString(s: string) | JOther(repr: string)

  /** A model configuration: its top-level keys. */
  type Model = map<string, Json>

  /** The base model a configuration inherits from, when its `inherits` is a non-empty string. */
  function Inherits(model: Model): Option<string> {
    if "inherits" in model && model["inherits"].JString? && model["inherits"].s != "" then Some(model["inherits"].s) else None
  }

  /** `setObjProperty` for every entry of `entries`: the entries overwrite the target's keys. */
  method SetProperties(target: Model, entries: Model) returns (r: Model)
    ensures r.Keys == target.Keys + entries.Keys
    ensures forall k :: k in entries ==> r[k] == entries[k]
    ensures forall k :: k in target && k !in entries ==> r[k] == target[k]
  {
    r := target;
    var todo := entries.Keys;
    while todo != {}
      invariant todo <= entries.Keys
      invariant r.Keys == target.Keys + (entries.Keys - todo)
      invariant forall k :: k in entries && k !in todo ==> r[k] == entries[k]
      invariant forall k :: k in target && k !in entries ==> r[k] == target[k]
      invariant forall k :: k in target && k in todo ==> r[k] == target[k]
      decreases todo
    {
      var k :| k in todo;
      r := r[k := entries[k]];
      todo := todo - {k};
    }
  }

  /** What one resolution returned (`None` when it threw) and the model table afterwards. */
  datatype ModelCall = ModelCall(result: Option<Model>, cached: map<string, Model>)

  /**
   * `getAIModel`: outside debug mode a cached model is used; otherwise the configuration file is
   * read and the table's entry replaced (removed when the file has no such model, after which
   * using it throws). `fuel` bounds the inheritance chain.
   */
  function ModelSpec(debug: bool, cached: map<string, Model>, name: string, overrides: Option<Model>,
                     conf: map<string, Model>, fuel: nat): (c: ModelCall)
    decreases fuel, 1
  {
    if !debug && name in cached then OverrideSpec(debug, cached, cached[name], overrides, conf, fuel)
    else if name !in conf then ModelCall(None, cached - {name})
    else OverrideSpec(debug, cached[name := conf[name]], conf[name], overrides, conf, fuel)
  }

  /** `_overrideModel`: the base model overwritten by the model's own keys, then by the caller's overrides. */
  function OverrideSpec(debug: bool, cached: map<string, Model>, model: Model, overrides: Option<Model>,
                        conf: map<string, Model>, fuel: nat): (c: ModelCall)
    decreases fuel, 0
  {
    if Inherits(model).Some? then
      if fuel == 0 then ModelCall(None, cached)
      else
        var base := ModelSpec(debug, cached, Inherits(model).value, None, conf, fuel - 1);
        if base.result.None? then base
        else ModelCall(Some(Overlay(Overlay(base.result.value, model), overrides.GetOr(map[]))), base.cached)
    else ModelCall(Some(Overlay(model, overrides.GetOr(map[]))), cached)
  }

  /** Keys of `top` overwrite those of `bottom`. */
  function Overlay(bottom: Model, top: Model): (r: Model)
    ensures r.Keys == bottom.Keys + top.Keys
    ensures forall k :: k in top ==> r[k] == top[k]
    ensures forall k :: k in bottom && k !in top ==> r[k] == bottom[k]
  {
    map k | k in bottom.Keys + top.Keys :: if k in top then top[k] else bottom[k]
  }

  /**
   * The caller's overrides win over everything, and the model's own keys win over what it
   * inherits.
   */
  lemma {:induction false} OverridesWin(debug: bool, cached: map<string, Model>, model: Model, overrides: Option<Model>,
                                        conf: map<string, Model>, fuel: nat)
    requires OverrideSpec(debug, cached, model, overrides, conf, fuel).result.Some?
    ensures var r := OverrideSpec(debug, cached, model, overrides, conf, fuel).result.value;
      && (overrides.Some? ==> forall k :: k in overrides.value ==> k in r && r[k] == overrides.value[k])
      && (forall k :: k in model && (overrides.None? || k !in overrides.value) ==> k in r && r[k] == model[k])
  {
  }

  /**
   * A model that inherits is resolved on top of its base: the base resolves within the fuel, and
   * every key of the base that neither the model nor the overrides set reaches the result with the
   * base's value.
   */
  lemma {:induction false} InheritedKeysReach(debug: bool, cached: map<string, Model>, model: Model, overrides: Option<Model>,
                                              conf: map<string, Model>, fuel: nat)
    requires Inherits(model).Some?
    requires OverrideSpec(debug, cached, model, overrides, conf, fuel).result.Some?
    ensures fuel > 0
    ensures var base := ModelSpec(debug, cached, Inherits(model).value, None, conf, fuel - 1).result;
      var r := OverrideSpec(debug, cached, model, overrides, conf, fuel).result.value;
      && base.Some?
      && r.Keys == base.value.Keys + model.Keys + overrides.GetOr(map[]).Keys
      && (forall k :: k in base.value && k !in model && k !in overrides.GetOr(map[]) ==> r[k] == base.value[k])
  {
  }

  /** A model the configuration file does not define resolves to nothing, and its table entry is removed. */
  lemma MissingModel(debug: bool, cached: map<string, Model>, name: string, overrides: Option<Model>,
                     conf: map<string, Model>, fuel: nat)
    requires name !in conf && (debug || name !in cached)
    ensures var c := ModelSpec(debug, cached, name, overrides, conf, fuel);
      c.result.None? && c.cached == cached - {name}
  {
  }

  /**
   * Outside debug mode an entry already in the model table is never replaced, whatever the
   * overrides: the table only gains entries for models read for the first time.
   */
  lemma {:induction false} CachedModelsKept(cached: map<string, Model>, name: string, overrides: Option<Model>,
                                            conf: map<string, Model>, fuel: nat)
    ensures var c := ModelSpec(false, cached, name, overrides, conf, fuel);
      forall n :: n in cached ==> n in c.cached && c.cached[n] == cached[n]
    decreases fuel, 1
  {
    if name in cached {
      OverrideKept(cached, cached[name], overrides, conf, fuel);
    } else if name in conf {
      OverrideKept(cached[name := conf[name]], conf[name], overrides, conf, fuel);
      assert forall n :: n in cached ==> n in cached[name := conf[name]] && cached[name := conf[name]][n] == cached[n];
    }
  }

  lemma {:induction false} OverrideKept(cached: map<string, Model>, model: Model, overrides: Option<Model>,
                                        conf: map<string, Model>, fuel: nat)
    ensures var c := OverrideSpec(false, cached, model, overrides, conf, fuel);
      forall n :: n in cached ==> n in c.cached && c.cached[n] == cached[n]
    decreases fuel, 0
  {
    if Inherits(model).Some? && fuel > 0 {
      CachedModelsKept(cached, Inherits(model).value, None, conf, fuel - 1);
    }
  }

  /**
   * A model missing from the table, or any model in debug mode, is (re)loaded from the
   * configuration file and its entry replaced, whatever it inherits; without an `inherits` the
   * result is the loaded model with the overrides laid over it.
   */
  lemma {:induction false} DebugRefreshes(debug: bool, cached: map<string, Model>, name: string, overrides: Option<Model>,
                                          conf: map<string, Model>, fuel: nat)
    requires name in conf && (debug || name !in cached)
    ensures var c := ModelSpec(debug, cached, name, overrides, conf, fuel);
      && name in c.cached && c.cached[name] == conf[name]
      && (Inherits(conf[name]).None? ==> c.result == Some(Overlay(conf[name], overrides.GetOr(map[]))))
  {
    ConfEntryStaysOverride(debug, cached[name := conf[name]], conf[name], overrides, conf, fuel, name);
  }

  /** An entry that agrees with the configuration file still does after a resolution. */
  lemma {:induction false} ConfEntryStays(debug: bool, cached: map<string, Model>, name: string, overrides: Option<Model>,
                                          conf: map<string, Model>, fuel: nat, n: string)
    requires n in cached && n in conf && cached[n] == conf[n]
    ensures var c := ModelSpec(debug, cached, name, overrides, conf, fuel);
      n in c.cached && c.cached[n] == conf[n]
    decreases fuel, 1
  {
    if !debug && name in cached {
      ConfEntryStaysOverride(debug, cached, cached[name], overrides, conf, fuel, n);
    } else if name in conf {
      ConfEntryStaysOverride(debug, cached[name := conf[name]], conf[name], overrides, conf, fuel, n);
    }
  }

  lemma {:induction false} ConfEntryStaysOverride(debug: bool, cached: map<string, Model>, model: Model, overrides: Option<Model>,
                                                  conf: map<string, Model>, fuel: nat, n: string)
    requires n in cached && n in conf && cached[n] == conf[n]
    ensures var c := OverrideSpec(debug, cached, model, overrides, conf, fuel);
      n in c.cached && c.cached[n] == conf[n]
    decreases fuel, 0
  {
    if Inherits(model).Some? && fuel > 0 {
      ConfEntryStays(debug, cached, Inherits(model).value, None, conf, fuel - 1, n);
    }
  }

  /** The model table of the process. */
  class ModelRegistry {
    const debug: bool
    var cached: map<string, Model>

    constructor (debug: bool, cached: map<string, Model>)
      ensures this.debug == debug && this.cached == cached
    {
      this.debug := debug;
      this.cached := cached;
    }

    /** `getAIModel`, with the parsed configuration file `conf`. */
    method GetAIModel(name: string, overrides: Option<Model>, conf: map<string, Model>, fuel: nat) returns (r: Option<Model>)
      modifies this
      ensures ModelCall(r, cached) == ModelSpec(debug, old(cached), name, overrides, conf, fuel)
      decreases fuel, 1
    {
      var model: Model;
      if !debug && name in cached {
        model := cached[name];
      } else {
        if name !in conf {
          cached := cached - {name};
          return None;
        }
        cached := cached[name := conf[name]];
        model := conf[name];
      }
      r := OverrideModel(model, overrides, conf, fuel);
    }

    /** `_overrideModel`. */
    method OverrideModel(model: Model, overrides: Option<Model>, conf: map<string, Model>, fuel: nat) returns (r: Option<Model>)
      modifies this
      ensures ModelCall(r, cached) == OverrideSpec(debug, old(cached), model, overrides, conf, fuel)
      decreases fuel, 0
    {
      var m := model;
      if Inherits(model).Some? {
        if fuel == 0 {
          return None;
        }
        var base := GetAIModel(Inherits(model).value, None, conf, fuel - 1);
        if base.None? {
          return None;
        }
        m := SetProperties(base.value, model);
        assert m == Overlay(base.value, model);
      }
      if overrides.Some? {
        var merged := SetProperties(m, overrides.value);
        assert merged == Overlay(m, overrides.value);
        m := merged;
      } else {
        assert m == Overlay(m, map[]);
      }
      r := Some(m);
    }
  }

  // ---------------------------------------------------------------------------------------------
  // getQuota
  // ---------------------------------------------------------------------------------------------

  /** A value in the quota file: a number or a string. */
  datatype QuotaValue = QNumber(v: real) | QText(s: string)

  predicate Truthy(v: QuotaValue) {
    match v
    case QNumber(x) => x != 0.0
    case QText(s) => s != ""
  }

  /** `parseFloat`, with the parse of a string given. */
  function ParseFloat(v: QuotaValue, parse: string -> Num): Num {
    match v
    case QNumber(x) => Finite(x)
    case QText(s) => parse(s)
  }

  /** A quota, or the `ReferenceError` raised when `DEFAULT_QUOTA` is not declared. */
  datatype QuotaResult = Quota(value: Num) | QuotaThrew

  /** The quota file: org to (key to value), `None` when it cannot be read or parsed. */
  type Quotas = Option<map<string, map<string, QuotaValue>>>

  function Entry(quotas: Quotas, org: string, key: string): Option<QuotaValue> {
    if quotas.Some? && org in quotas.value && key in quotas.value[org] then Some(quotas.value[org][key]) else None
  }

  function Fallback(defaultQuota: Option<Num>): QuotaResult {
    if defaultQuota.Some? then Quota(defaultQuota.value) else QuotaThrew
  }

  /** `getQuota`: the user's entry, then the org's default, then the global default, then `DEFAULT_QUOTA`. */
  function GetQuota(quotas: Quotas, id: string, org: string, parse: string -> Num, defaultQuota: Option<Num>): QuotaResult {
    if quotas.None? then Fallback(defaultQuota)
    else
      var user := Entry(quotas, org, id);
      var orgDefault := Entry(quotas, org, "defaultQuota");
      var globalDefault := Entry(quotas, "_global", "defaultQuota");
      if user.Some? && Truthy(user.value) then Quota(ParseFloat(user.value, parse))
      else if orgDefault.Some? && Truthy(orgDefault.value) then Quota(ParseFloat(orgDefault.value, parse))
      else if globalDefault.Some? && Truthy(globalDefault.value) then Quota(ParseFloat(globalDefault.value, parse))
      else Fallback(defaultQuota)
  }

  /** No candidate before index `n` is present and truthy. */
  predicate NoneTruthyBefore(candidates: seq<Option<QuotaValue>>, n: int)
    requires n <= |candidates|
  {
    forall j :: 0 <= j < n ==> candidates[j].None? || !Truthy(candidates[j].value)
  }

  /** The first candidate present and truthy. */
  function FirstTruthy(candidates: seq<Option<QuotaValue>>): (r: Option<QuotaValue>)
    ensures r.Some? ==> Truthy(r.value) && exists i :: 0 <= i < |candidates| && candidates[i] == r && NoneTruthyBefore(candidates, i)
    ensures r.None? <==> NoneTruthyBefore(candidates, |candidates|)
  {
    if candidates == [] then None
    else if candidates[0].Some? && Truthy(candidates[0].value) then
      assert NoneTruthyBefore(candidates, 0);
      candidates[0]
    else
      var r := FirstTruthy(candidates[1..]);
      assert forall i :: 1 <= i < |candidates| ==> candidates[i] == candidates[1..][i - 1];
      if r.Some? then
        var i :| 0 <= i < |candidates[1..]| && candidates[1..][i] == r && NoneTruthyBefore(candidates[1..], i);
        assert NoneTruthyBefore(candidates, i + 1);
        r
      else r
  }

  /** The quota is the first truthy of the user's entry, the org default and the global default, else the fallback. */
  lemma QuotaPrecedence(quotas: Quotas, id: string, org: string, parse: string -> Num, defaultQuota: Option<Num>)
    ensures var chosen := if quotas.None? then None
                          else FirstTruthy([Entry(quotas, org, id), Entry(quotas, org, "defaultQuota"),
                                            Entry(quotas, "_global", "defaultQuota")]);
      GetQuota(quotas, id, org, parse, defaultQuota)
      == (if chosen.Some? then Quota(ParseFloat(chosen.value, parse)) else Fallback(defaultQuota))
  {
    if quotas.Some? {
      var c := [Entry(quotas, org, id), Entry(quotas, org, "defaultQuota"), Entry(quotas, "_global", "defaultQuota")];
      assert c[1..] == [c[1], c[2]] && c[1..][1..] == [c[2]] && c[1..][1..][1..] == [];
    }
  }
}
