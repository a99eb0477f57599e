/**
 * The options page of options.js: the form filled from the stored
 * `proxyConfig` record, and the normalised record written back after every
 * edit.
 */
module Options {
  import opened Common
  import Strings
  import Background

  /** The three text fields and the cache checkbox, as their values. */
  datatype Form = Form(proxy: string, timeout: string, disableCache: bool, collect: string)

  /** `v || ""` assigned to a text field: falsy values give "", others their string form. */
  function InputText(v: Value): (r: string)
    ensures !Truthy(v) ==> r == ""
    ensures v.Str? ==> r == v.s
  {
    if Truthy(v) then Strings.JsString(v) else ""
  }

  /**
   * The load handler: the proxy field shows the stored string, the timeout
   * field a stored positive number, the collect field a stored number that
   * is at least 0 (other values leave them blank), and the checkbox is ticked
   * only by a stored `true`. A missing record fills the form as an empty one.
   */
  function LoadForm(stored: Option<Config>): (f: Form)
    ensures var c := stored.GetOr(Background.EmptyConfig);
      && f.proxy == InputText(c.proxyString)
      && (c.timeoutMs.Num? && c.timeoutMs.n > 0 ==> Strings.ParseInt(f.timeout) == Some(c.timeoutMs.n))
      && (!(c.timeoutMs.Num? && c.timeoutMs.n > 0) ==> f.timeout == "")
      && (c.proxyCollectMs.Num? && c.proxyCollectMs.n >= 0 ==> Strings.ParseInt(f.collect) == Some(c.proxyCollectMs.n))
      && (!(c.proxyCollectMs.Num? && c.proxyCollectMs.n >= 0) ==> f.collect == "")
      && (f.disableCache <==> c.disableCache == Bool(true))
  {
    var c := stored.GetOr(Background.EmptyConfig);
    var timeout := if c.timeoutMs.Num? && c.timeoutMs.n > 0 then Strings.NatToString(c.timeoutMs.n) else "";
    var collect := if c.proxyCollectMs.Num? && c.proxyCollectMs.n >= 0 then Strings.NatToString(c.proxyCollectMs.n) else "";
    assert c.timeoutMs.Num? && c.timeoutMs.n > 0 ==> Strings.ParseInt(timeout) == Some(c.timeoutMs.n) by {
      if c.timeoutMs.Num? && c.timeoutMs.n > 0 { Strings.ParseIntOfNatString(c.timeoutMs.n); }
    }
    assert c.proxyCollectMs.Num? && c.proxyCollectMs.n >= 0 ==> Strings.ParseInt(collect) == Some(c.proxyCollectMs.n) by {
      if c.proxyCollectMs.Num? && c.proxyCollectMs.n >= 0 { Strings.ParseIntOfNatString(c.proxyCollectMs.n); }
    }
    Form(InputText(c.proxyString), timeout, c.disableCache == Bool(true), collect)
  }

  /**
   * The record `saveConfig` builds: the trimmed proxy text, the parsed
   * timeout when it is a positive integer and else 0, the parsed collection
   * window when it is at least 0 and else 0, and the checkbox state.
   */
  function Saved(f: Form): (c: Config)
  {
    Config(
      Str(Strings.Trim(f.proxy)),
      Num(PositiveOrZero(Strings.ParseInt(Strings.Trim(f.timeout)))),
      Num(NonNegativeOrZero(Strings.ParseInt(Strings.Trim(f.collect)))),
      Bool(f.disableCache))
  }

  /** A parsed timeout that is a positive integer, else 0. */
  function PositiveOrZero(p: Option<int>): (n: nat)
    ensures p.Some? && p.value > 0 ==> n == p.value
    ensures !(p.Some? && p.value > 0) ==> n == 0
  {
    if p.Some? && p.value > 0 then p.value else 0
  }

  /** A parsed collection window that is an integer at least 0, else 0. */
  function NonNegativeOrZero(p: Option<int>): (n: nat)
    ensures p.Some? && p.value >= 0 ==> n == p.value
    ensures !(p.Some? && p.value >= 0) ==> n == 0
  {
    if p.Some? && p.value >= 0 then p.value else 0
  }

  /** The shape of every record the options page writes. */
  predicate Normal(c: Config) {
    && c.proxyString.Str? && Strings.Trim(c.proxyString.s) == c.proxyString.s
    && c.timeoutMs.Num? && c.timeoutMs.n >= 0
    && c.proxyCollectMs.Num? && c.proxyCollectMs.n >= 0
    && c.disableCache.Bool?
  }

  lemma SavedIsNormal(f: Form)
    ensures Normal(Saved(f))
  {
    Strings.TrimIdempotent(f.proxy);
  }

  /** Loading a record the page wrote and saving it again writes the same record. */
  lemma LoadSaveRoundTrip(c: Config)
    requires Normal(c)
    ensures Saved(LoadForm(Some(c))) == c
  {
    var f := LoadForm(Some(c));
    assert Strings.Trim(f.proxy) == c.proxyString.s by {
      if c.proxyString.s == "" {
        Strings.TrimOfTrimmed("");
      }
    }
    assert PositiveOrZero(Strings.ParseInt(Strings.Trim(f.timeout))) == c.timeoutMs.n by {
      Strings.ParseIntOfTrimmed(f.timeout);
      if c.timeoutMs.n == 0 {
        Strings.TrimOfTrimmed("");
      }
    }
    assert NonNegativeOrZero(Strings.ParseInt(Strings.Trim(f.collect))) == c.proxyCollectMs.n by {
      Strings.ParseIntOfTrimmed(f.collect);
    }
  }

  /** Hence saving is stable under a reload of the page. */
  lemma SaveAfterReloadIsStable(f: Form)
    ensures Saved(LoadForm(Some(Saved(f)))) == Saved(f)
  {
    SavedIsNormal(f);
    LoadSaveRoundTrip(Saved(f));
  }

  /**
   * The record the worker writes on first run is one the page writes too:
   * it fills the form with an empty proxy, 5000, 3000 and a ticked box, and
   * saving that form writes the same record back.
   */
  lemma FirstRunRecordRoundTrips()
    ensures Normal(DefaultConfig)
    ensures var f := LoadForm(Some(DefaultConfig));
      && f.proxy == "" && f.disableCache
      && Strings.ParseInt(f.timeout) == Some(DefaultTimeoutMs)
      && Strings.ParseInt(f.collect) == Some(DefaultCollectMs)
    ensures Saved(LoadForm(Some(DefaultConfig))) == DefaultConfig
  {
    Strings.TrimOfTrimmed("");
    LoadSaveRoundTrip(DefaultConfig);
  }

  /**
   * A timeout field that does not hold a positive integer is stored as 0,
   * and the worker then falls back to its 5000 ms default.
   */
  lemma InvalidTimeoutFallsBackToDefault(f: Form)
    requires Strings.ParseInt(f.timeout).None? || Strings.ParseInt(f.timeout).value <= 0
    ensures Saved(f).timeoutMs == Num(0)
    ensures Background.EffectiveTimeoutMs(Background.Overlay(Saved(f)).timeoutMs) == DefaultTimeoutMs
  {
    Strings.ParseIntOfTrimmed(f.timeout);
    Strings.ParseIntOfTrimmed(f.collect);
  }

  /**
   * A collection field that does not hold an integer at least 0 is also
   * stored as 0, but 0 passes the worker's `>= 0` test, so the pass gets no
   * collection window at all rather than the 3000 ms default.
   */
  lemma InvalidCollectDisablesWindow(f: Form)
    requires Strings.ParseInt(f.collect).None? || Strings.ParseInt(f.collect).value < 0
    ensures Saved(f).proxyCollectMs == Num(0)
    ensures Background.EffectiveCollectMs(Background.Overlay(Saved(f)).proxyCollectMs) == 0
  {
    Strings.ParseIntOfTrimmed(f.timeout);
    Strings.ParseIntOfTrimmed(f.collect);
  }

  /** Valid field values reach the worker unchanged. */
  lemma ValidFieldsReachWorker(f: Form)
    requires Strings.ParseInt(f.timeout).Some? && Strings.ParseInt(f.timeout).value > 0
    requires Strings.ParseInt(f.collect).Some? && Strings.ParseInt(f.collect).value >= 0
    ensures Background.EffectiveTimeoutMs(Background.Overlay(Saved(f)).timeoutMs) == Strings.ParseInt(f.timeout).value
    ensures Background.EffectiveCollectMs(Background.Overlay(Saved(f)).proxyCollectMs) == Strings.ParseInt(f.collect).value
  {
    Strings.ParseIntOfTrimmed(f.timeout);
    Strings.ParseIntOfTrimmed(f.collect);
  }

  /** The page's form and the `proxyConfig` record it last wrote to sync storage. */
  class OptionsPage {
    var form: Form
    var written: Option<Config>

    constructor(initial: Form)
      ensures form == initial && written.None?
    {
      form := initial;
      written := None;
    }

    /** The `storage.sync.get` callback fills the form. */
    method OnConfigLoaded(stored: Option<Config>)
      modifies this`form
      ensures form == LoadForm(stored)
    {
      form := LoadForm(stored);
    }

    /** An `input` or `change` event: the edited form is saved at once. */
    method OnEdit(edited: Form)
      modifies this`form, this`written
      ensures form == edited
      ensures written == Some(Saved(edited)) && Normal(written.value)
    {
      form := edited;
      SaveConfig();
      SavedIsNormal(edited);
    }

    /** `saveConfig`: normalise the form and write the record. */
    method SaveConfig()
      modifies this`written
      ensures written == Some(Saved(form))
    {
      var timeout := Strings.ParseInt(Strings.Trim(form.timeout));
      var collect := Strings.ParseInt(Strings.Trim(form.collect));
      written := Some(Config(Str(Strings.Trim(form.proxy)), Num(PositiveOrZero(timeout)), Num(NonNegativeOrZero(collect)),
                             Bool(form.disableCache)));
    }
  }
}
