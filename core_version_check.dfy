/**
 * `CoreVersionCheck`: compares the running WordPress version with the
 * latest one that `get_core_updates()` offers. The installed version, the
 * update list and PHP's `version_compare(…, '>=')` are inputs.
 */
module CoreVersionCheck {
  import opened Wrappers
  import opened Php
  import opened Results

  const TypeName: string := "wordpress_core_version"
  const UnavailableMessage: string := "WordPress update functions are unavailable."
  const UnknownLatestMessage: string := "Unable to determine the latest WordPress version."

  function UpToDateMessage(current: string): string {
    "WordPress core is up to date (version " + current + ")."
  }

  /**
   * The arrow is one character here; the PHP source holds it as its three
   * UTF-8 bytes, so the texts agree but their lengths do not.
   */
  function UpdateAvailableMessage(current: string, latest: string): string {
    "WordPress core update available: " + current + " \U{2192} " + latest + "."
  }

  /** `version_compare($a, $b, '>=')`, left abstract. */
  type VersionAtLeast = (string, string) -> bool

  /** An update offer whose `response` is 'upgrade' or 'latest' and whose `current` is not empty. */
  predicate Qualifies(update: Value)
    ensures Qualifies(update) ==> update.Obj? && Isset(Prop(update, "current"))
  {
    var response := Coalesce(Prop(update, "response"), Null);
    (response == Str("upgrade") || response == Str("latest")) && !Empty(Prop(update, "current"))
  }

  /** The position of the first qualifying offer, if any. */
  function FirstQualifying(updates: seq<Value>): (r: Option<nat>)
    ensures r.Some? ==> r.value < |updates| && Qualifies(updates[r.value])
    ensures r.Some? ==> forall j :: 0 <= j < r.value ==> !Qualifies(updates[j])
    ensures r.None? ==> forall j :: 0 <= j < |updates| ==> !Qualifies(updates[j])
  {
    if updates == [] then None
    else if Qualifies(updates[0]) then Some(0)
    else
      var rest := FirstQualifying(updates[1..]);
      if rest.Some? then Some(rest.value + 1) else None
  }

  /** What `fetchLatestVersion()` comes to: a version, none, or a `current` that violates the `?string` return type. */
  datatype Latest = NoLatest | LatestVersion(version: string) | NotAString

  /** The offers `foreach ($updates as $update)` visits. */
  function Offers(updates: Value): seq<Value> {
    var es := Elements(updates);
    seq(|es|, i requires 0 <= i < |es| => es[i].val)
  }

  /** `fetchLatestVersion()`, with `get_core_updates()`'s return value as `updates`. */
  function FetchLatestVersion(updates: Value): (r: Latest)
    ensures Empty(Some(updates)) ==> r == NoLatest
    ensures r.LatestVersion? ==> r.version != "" && r.version != "0"
    ensures r.LatestVersion? <==>
      !Empty(Some(updates)) && FirstQualifying(Offers(updates)).Some?
      && Prop(Offers(updates)[FirstQualifying(Offers(updates)).value], "current").value.Str?
    ensures r.LatestVersion? ==>
      r.version == Prop(Offers(updates)[FirstQualifying(Offers(updates)).value], "current").value.s
    ensures r.NotAString? <==>
      !Empty(Some(updates)) && FirstQualifying(Offers(updates)).Some?
      && !Prop(Offers(updates)[FirstQualifying(Offers(updates)).value], "current").value.Str?
  {
    if Empty(Some(updates)) then NoLatest
    else
      var offers := Offers(updates);
      var first := FirstQualifying(offers);
      if first.None? then NoLatest
      else
        var current := Prop(offers[first.value], "current").value;
        if current.Str? then LatestVersion(current.s) else NotAString
  }

  function StrField(name: string, v: Option<string>): seq<Field> {
    if v.Some? then [Field(name, StrDatum(v.value))] else []
  }

  function AsDatum(v: Option<string>): Option<Datum> {
    if v.Some? then Some(StrDatum(v.value)) else None
  }

  /** `buildResult`: null versions are filtered out, and no versions at all give null data. */
  function BuildResult(status: Status, message: string, current: Option<string>, latest: Option<string>)
    : (r: ResultData)
    ensures r.typeName == TypeName && r.key == None && r.status == status && r.message == message
    ensures r.data.None? <==> current.None? && latest.None?
    ensures r.data.Some? ==>
      FieldValue(r.data.value, "current_version") == AsDatum(current)
      && FieldValue(r.data.value, "latest_version") == AsDatum(latest)
      && |r.data.value| == |StrField("current_version", current)| + |StrField("latest_version", latest)|
  {
    var first := StrField("current_version", current);
    var second := StrField("latest_version", latest);
    FieldValueAppend(first, second, "current_version");
    FieldValueAppend(first, second, "latest_version");
    ResultData(TypeName, None, status, message, NullIfEmpty(first + second))
  }

  /**
   * `run()`. Missing update functions and an unknown latest version are
   * Warnings that carry only the current version; otherwise the check is
   * Healthy exactly when the current version is at least the latest one.
   * A non-string `current` raises a `TypeError`, which is not caught. The
   * check never reports Unhealthy.
   */
  function Run(functionsLoaded: bool, current: string, updates: Value, atLeast: VersionAtLeast): (r: CheckRun)
    ensures r.Completed? ==> r.result.typeName == TypeName && r.result.status != Unhealthy
    ensures r.Threw? <==> functionsLoaded && FetchLatestVersion(updates).NotAString?
    ensures r.Threw? ==> r.exception == TypeErrorThrown
    ensures !functionsLoaded ==>
      r == Completed(BuildResult(Warning, UnavailableMessage, Some(current), None))
    ensures functionsLoaded && FetchLatestVersion(updates).NoLatest? ==>
      r == Completed(BuildResult(Warning, UnknownLatestMessage, Some(current), None))
    ensures r.Completed? ==>
      (r.result.status == Healthy <==>
         functionsLoaded && FetchLatestVersion(updates).LatestVersion?
         && atLeast(current, FetchLatestVersion(updates).version))
    ensures r.Completed? && r.result.data.Some? ==>
      FieldValue(r.result.data.value, "current_version") == Some(StrDatum(current))
      && (FieldValue(r.result.data.value, "latest_version").Some? <==>
            functionsLoaded && FetchLatestVersion(updates).LatestVersion?)
    ensures functionsLoaded && FetchLatestVersion(updates).LatestVersion? ==>
      var latest := FetchLatestVersion(updates).version;
      && r.Completed? && r.result.data.Some?
      && FieldValue(r.result.data.value, "latest_version") == Some(StrDatum(latest))
      && r.result.message
         == if atLeast(current, latest) then UpToDateMessage(current) else UpdateAvailableMessage(current, latest)
  {
    if !functionsLoaded then
      Completed(BuildResult(Warning, UnavailableMessage, Some(current), None))
    else
      match FetchLatestVersion(updates)
      case NoLatest => Completed(BuildResult(Warning, UnknownLatestMessage, Some(current), None))
      case NotAString => Threw(TypeErrorThrown)
      case LatestVersion(latest) =>
        if atLeast(current, latest) then
          Completed(BuildResult(Healthy, UpToDateMessage(current), Some(current), Some(latest)))
        else
          Completed(BuildResult(Warning, UpdateAvailableMessage(current, latest), Some(current), Some(latest)))
  }

  /** `available()`: `wp_version_check` exists once its files are loaded. */
  predicate Available(functionsLoaded: bool)
    ensures !Available(functionsLoaded) ==>
      forall current, updates, atLeast :: Run(functionsLoaded, current, updates, atLeast)
                                          == Completed(BuildResult(Warning, UnavailableMessage, Some(current), None))
  {
    functionsLoaded
  }

  /** The first qualifying offer wins, whether it says 'latest' or 'upgrade'. */
  lemma FirstOfferWins(older: string, newer: string)
    requires older != "" && older != "0" && newer != "" && newer != "0"
    ensures FetchLatestVersion(Arr([
      Entry("0", Obj([Entry("response", Str("latest")), Entry("current", Str(older))])),
      Entry("1", Obj([Entry("response", Str("upgrade")), Entry("current", Str(newer))]))]))
      == LatestVersion(older)
  {
    var first := Obj([Entry("response", Str("latest")), Entry("current", Str(older))]);
    assert Prop(first, "response") == Some(Str("latest"));
    LookupDistinct(first.props, 1);
    assert Qualifies(first);
  }

  /** Offers with an empty `current` are passed over. */
  lemma EmptyCurrentIsSkipped(latest: string)
    requires latest != "" && latest != "0"
    ensures FetchLatestVersion(Arr([
      Entry("0", Obj([Entry("response", Str("upgrade")), Entry("current", Str(""))])),
      Entry("1", Obj([Entry("response", Str("upgrade")), Entry("current", Str(latest))]))]))
      == LatestVersion(latest)
  {
    var blank := Obj([Entry("response", Str("upgrade")), Entry("current", Str(""))]);
    var offer := Obj([Entry("response", Str("upgrade")), Entry("current", Str(latest))]);
    LookupDistinct(blank.props, 1);
    assert !Qualifies(blank);
    assert Prop(offer, "response") == Some(Str("upgrade"));
    LookupDistinct(offer.props, 1);
    assert Qualifies(offer);
    var updates := Arr([Entry("0", blank), Entry("1", offer)]);
    assert Offers(updates) == [blank, offer];
    assert Offers(updates)[1..] == [offer];
    assert FirstQualifying(Offers(updates)) == Some(1);
  }
}
