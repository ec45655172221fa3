/** The dashboard's view of one resource: health aggregation, replica naming, the two-key
    name ordering, health-report descriptions and resource-property display rules. */
module ResourceModel {
  import opened Wrappers
  import opened Text

  /** `HealthStatus` of the health-check library. Its numeric order is
      Unhealthy (0) < Degraded (1) < Healthy (2): the lower, the worse. */
  datatype HealthStatus = Unhealthy | Degraded | Healthy

  function Rank(h: HealthStatus): nat {
    match h
    case Unhealthy => 0
    case Degraded => 1
    case Healthy => 2
  }

  /** Only `Running` is distinguished by the rules modelled here; every other state is
      carried by its name. */
  datatype KnownResourceState = Running | OtherState(stateName: string)

  /** A health report: its status is absent until the first health check has returned. */
  datatype HealthReport = HealthReport(
    name: string,
    healthStatus: Option<HealthStatus>,
    description: Option<string>,
    exceptionText: Option<string>)

  /** `MinBy(r => r.HealthStatus)?.HealthStatus`: reports whose status is absent are skipped;
      when every status is absent the result is absent too. */
  function MinReportedStatus(reports: seq<HealthReport>): (r: Option<HealthStatus>)
    ensures r.None? <==> forall i :: 0 <= i < |reports| ==> reports[i].healthStatus.None?
    ensures r.Some? ==> exists i :: 0 <= i < |reports| && reports[i].healthStatus == r
    ensures r.Some? ==> forall i :: 0 <= i < |reports| && reports[i].healthStatus.Some? ==>
                          Rank(r.value) <= Rank(reports[i].healthStatus.value)
  {
    if |reports| == 0 then None
    else
      var rest := MinReportedStatus(reports[1..]);
      assert forall i :: 1 <= i < |reports| ==> reports[i] == reports[1..][i - 1];
      match reports[0].healthStatus
      case None => rest
      case Some(h) =>
        if rest.Some? && Rank(rest.value) < Rank(h) then rest else Some(h)
  }

  /** `ResourceViewModel.ComputeHealthStatus`. */
  function ComputeHealthStatus(reports: seq<HealthReport>, state: Option<KnownResourceState>): (r: Option<HealthStatus>)
    // Health is only reported for a running resource.
    ensures state != Some(Running) ==> r.None?
    // A running resource without health checks is assumed healthy.
    ensures state == Some(Running) && |reports| == 0 ==> r == Some(Healthy)
    // With reports: the worst reported status, or Unhealthy when none has reported yet.
    ensures state == Some(Running) && |reports| > 0 ==> r.Some?
    ensures (state == Some(Running) && |reports| > 0 &&
             forall i :: 0 <= i < |reports| ==> reports[i].healthStatus.None?) ==> r == Some(Unhealthy)
    ensures state == Some(Running) && |reports| > 0 ==>
            forall i :: 0 <= i < |reports| && reports[i].healthStatus.Some? ==>
              Rank(r.value) <= Rank(reports[i].healthStatus.value)
    ensures state == Some(Running) && r != Some(Healthy) && |reports| > 0 ==>
            (exists i :: 0 <= i < |reports| && reports[i].healthStatus == r) ||
            (forall i :: 0 <= i < |reports| ==> reports[i].healthStatus.None?)
  {
    if state != Some(Running) then None
    else if |reports| == 0 then Some(Healthy)
    else Some(MinReportedStatus(reports).GetOr(Unhealthy))
  }

  /** A running resource whose reports are one pending check and one healthy check is
      Healthy: pending reports do not pull the status down once another report has a
      status (the comment beside the code says the opposite). */
  lemma PendingReportIsIgnoredBesideHealthy(pending: HealthReport, healthy: HealthReport)
    requires pending.healthStatus.None? && healthy.healthStatus == Some(Healthy)
    ensures ComputeHealthStatus([pending, healthy], Some(Running)) == Some(Healthy)
  {
    assert MinReportedStatus([healthy]) == Some(Healthy);
    assert [pending, healthy][1..] == [healthy];
  }

  /** The status is the same whatever order the reports arrive in. */
  lemma {:induction false} MinReportedStatusPermutation(a: seq<HealthReport>, b: seq<HealthReport>)
    requires multiset(a) == multiset(b)
    ensures MinReportedStatus(a) == MinReportedStatus(b)
  {
    if MinReportedStatus(b).Some? {
      MinReportedStatusNoWorse(a, b);
      MinReportedStatusNoWorse(b, a);
    } else if MinReportedStatus(a).Some? {
      MinReportedStatusNoWorse(b, a);
    }
  }

  /** One direction of `MinReportedStatusPermutation`: a status reported in `b` is reported in
      its permutation `a`, so `a`'s minimum is present and no better. */
  lemma MinReportedStatusNoWorse(a: seq<HealthReport>, b: seq<HealthReport>)
    requires multiset(a) == multiset(b)
    requires MinReportedStatus(b).Some?
    ensures MinReportedStatus(a).Some?
    ensures Rank(MinReportedStatus(a).value) <= Rank(MinReportedStatus(b).value)
  {
    var rb := MinReportedStatus(b);
    var j :| 0 <= j < |b| && b[j].healthStatus == rb;
    assert b[j] in multiset(a);
    var j' :| 0 <= j' < |a| && a[j'] == b[j];
  }

  /** A resource as the dashboard holds it. Only the members the modelled rules read are
      present. `HealthReports` and `KnownState` are init-only properties whose setters
      recompute the privately set `HealthStatus`. */
  class ResourceViewModel {
    const name: string
    const displayName: string
    /** Whether the resource is in a hidden state (`IsHiddenState()`). */
    const isHidden: bool
    var healthReports: seq<HealthReport>
    var knownState: Option<KnownResourceState>
    var healthStatus: Option<HealthStatus>

    ghost predicate Valid()
      reads this
    {
      healthStatus == ComputeHealthStatus(healthReports, knownState)
    }

    /** The object before any init setter runs: no reports, no known state, no status. */
    constructor (name: string, displayName: string, isHidden: bool)
      ensures Valid()
      ensures this.name == name && this.displayName == displayName && this.isHidden == isHidden
      ensures healthReports == [] && knownState.None? && healthStatus.None?
    {
      this.name := name;
      this.displayName := displayName;
      this.isHidden := isHidden;
      healthReports := [];
      knownState := None;
      healthStatus := None;
    }

    /** The `HealthReports` init setter. */
    method InitHealthReports(value: seq<HealthReport>)
      requires Valid()
      modifies this
      ensures Valid()
      ensures healthReports == value && knownState == old(knownState)
      ensures healthStatus == ComputeHealthStatus(value, knownState)
    {
      healthReports := value;
      healthStatus := ComputeHealthStatus(value, knownState);
    }

    /** The `KnownState` init setter. */
    method InitKnownState(value: Option<KnownResourceState>)
      requires Valid()
      modifies this
      ensures Valid()
      ensures knownState == value && healthReports == old(healthReports)
      ensures healthStatus == ComputeHealthStatus(healthReports, value)
    {
      knownState := value;
      healthStatus := ComputeHealthStatus(healthReports, value);
    }
  }

  /** An object initialiser that sets both properties ends with the same status whichever
      setter runs last. */
  method InitializeInEitherOrder(name: string, displayName: string, reports: seq<HealthReport>,
                                 state: Option<KnownResourceState>, reportsFirst: bool)
    returns (r: ResourceViewModel)
    ensures fresh(r) && r.Valid()
    ensures r.healthStatus == ComputeHealthStatus(reports, state)
  {
    r := new ResourceViewModel(name, displayName, false);
    if reportsFirst {
      r.InitHealthReports(reports);
      r.InitKnownState(state);
    } else {
      r.InitKnownState(state);
      r.InitHealthReports(reports);
    }
  }

  /** Number of non-hidden resources whose display name equals `displayName` under `eq`. */
  function CountSameDisplayName(all: seq<ResourceViewModel>, displayName: string, eq: (string, string) -> bool): nat
  {
    if |all| == 0 then 0
    else CountSameDisplayName(all[..|all| - 1], displayName, eq) +
         (if !all[|all| - 1].isHidden && eq(all[|all| - 1].displayName, displayName) then 1 else 0)
  }

  lemma {:induction false} CountSameDisplayNamePrefix(all: seq<ResourceViewModel>, k: nat, displayName: string, eq: (string, string) -> bool)
    requires k <= |all|
    ensures CountSameDisplayName(all[..k], displayName, eq) <= CountSameDisplayName(all, displayName, eq)
    decreases |all|
  {
    if k < |all| {
      CountSameDisplayNamePrefix(all[..|all| - 1], k, displayName, eq);
      assert all[..|all| - 1][..k] == all[..k];
    } else {
      assert all[..k] == all;
    }
  }

  /** `ResourceViewModel.GetResourceName`: the unique `Name` when at least two visible
      resources share the display name (a replica set), otherwise the display name.
      `allResources` are the dictionary's values in enumeration order and `eq` is the
      resource-name string comparison. */
  method GetResourceName(resource: ResourceViewModel, allResources: seq<ResourceViewModel>, eq: (string, string) -> bool)
    returns (r: string)
    ensures r == (if CountSameDisplayName(allResources, resource.displayName, eq) >= 2
                  then resource.name else resource.displayName)
  {
    var count := 0;
    var i := 0;
    while i < |allResources|
      invariant 0 <= i <= |allResources|
      invariant count == CountSameDisplayName(allResources[..i], resource.displayName, eq)
      invariant count < 2
    {
      var item := allResources[i];
      assert allResources[..i + 1][..i] == allResources[..i];
      if !item.isHidden && eq(item.displayName, resource.displayName) {
        count := count + 1;
        if count >= 2 {
          CountSameDisplayNamePrefix(allResources, i + 1, resource.displayName, eq);
          return resource.name;
        }
      }
      i := i + 1;
    }
    assert allResources[..i] == allResources;
    r := resource.displayName;
  }

  /** `ResourceViewModelNameComparer.Compare` on the (display name, name) keys of two
      resources: display names first, full names only to break a tie. `cmp` is the
      resource-name string comparer. */
  function CompareNames(xDisplay: string, xName: string, yDisplay: string, yName: string,
                        cmp: (string, string) -> int): (r: int)
    ensures cmp(xDisplay, yDisplay) != 0 ==> r == cmp(xDisplay, yDisplay)
    ensures cmp(xDisplay, yDisplay) == 0 ==> r == cmp(xName, yName)
    ensures r == 0 <==> cmp(xDisplay, yDisplay) == 0 && cmp(xName, yName) == 0
  {
    var displayNameResult := cmp(xDisplay, yDisplay);
    if displayNameResult != 0 then displayNameResult else cmp(xName, yName)
  }

  function Compare(x: ResourceViewModel, y: ResourceViewModel, cmp: (string, string) -> int): (r: int)
    ensures r == 0 <==> cmp(x.displayName, y.displayName) == 0 && cmp(x.name, y.name) == 0
  {
    CompareNames(x.displayName, x.name, y.displayName, y.name, cmp)
  }

  /** A string comparer in the sense of `IComparer`: swapping the arguments flips the sign,
      and "at most" is transitive. */
  ghost predicate IsComparer(cmp: (string, string) -> int) {
    (forall a, b :: (cmp(a, b) < 0 <==> cmp(b, a) > 0) && (cmp(a, b) == 0 <==> cmp(b, a) == 0)) &&
    (forall a, b, c :: cmp(a, b) <= 0 && cmp(b, c) <= 0 ==> cmp(a, c) <= 0) &&
    (forall a, b, c :: cmp(a, b) == 0 && cmp(b, c) == 0 ==> cmp(a, c) == 0)
  }

  /** The two-key comparison is itself a comparer whenever the string comparer is one. */
  lemma CompareNamesAntisymmetric(xd: string, xn: string, yd: string, yn: string, cmp: (string, string) -> int)
    requires IsComparer(cmp)
    ensures CompareNames(xd, xn, yd, yn, cmp) < 0 <==> CompareNames(yd, yn, xd, xn, cmp) > 0
    ensures CompareNames(xd, xn, yd, yn, cmp) == 0 <==> CompareNames(yd, yn, xd, xn, cmp) == 0
  {
    assert cmp(xd, yd) < 0 <==> cmp(yd, xd) > 0;
    assert cmp(xd, yd) == 0 <==> cmp(yd, xd) == 0;
    assert cmp(xn, yn) < 0 <==> cmp(yn, xn) > 0;
    assert cmp(xn, yn) == 0 <==> cmp(yn, xn) == 0;
  }

  lemma CompareNamesTransitive(ad: string, an: string, bd: string, bn: string, cd: string, cn: string,
                               cmp: (string, string) -> int)
    requires IsComparer(cmp)
    requires CompareNames(ad, an, bd, bn, cmp) <= 0 && CompareNames(bd, bn, cd, cn, cmp) <= 0
    ensures CompareNames(ad, an, cd, cn, cmp) <= 0
  {
    assert cmp(ad, bd) <= 0 && cmp(bd, cd) <= 0;
    assert cmp(ad, cd) <= 0;
    if cmp(ad, cd) == 0 {
      // Equal display names at both ends force equality through the middle.
      assert cmp(cd, ad) == 0;
      assert cmp(bd, ad) <= 0 by {
        assert cmp(bd, cd) <= 0 && cmp(cd, ad) <= 0;
      }
      assert cmp(ad, bd) == 0;
      assert cmp(bd, cd) == 0;
      assert cmp(an, bn) <= 0 && cmp(bn, cn) <= 0;
    }
  }

  /** First index in `s` holding `\n` or `\r` (`IndexOfAny(['\n', '\r'])`), or -1. */
  function IndexOfNewLine(s: string): (r: int)
    ensures -1 <= r < |s|
    ensures r == -1 <==> forall i :: 0 <= i < |s| ==> s[i] != '\n' && s[i] != '\r'
    ensures r >= 0 ==> (s[r] == '\n' || s[r] == '\r') &&
                       forall i :: 0 <= i < r ==> s[i] != '\n' && s[i] != '\r'
  {
    if |s| == 0 then -1
    else if s[0] == '\n' || s[0] == '\r' then 0
    else
      var k := IndexOfNewLine(s[1..]);
      if k == -1 then -1 else k + 1
  }

  /** `HealthReportViewModel.DisplayedDescription`. */
  function DisplayedDescription(report: HealthReport): (r: Option<string>)
    // A non-blank description wins.
    ensures !IsNullOrWhiteSpace(report.description) ==> r == report.description
    // Otherwise the exception text, cut before its first line break when that break is
    // not the first character.
    ensures IsNullOrWhiteSpace(report.description) && !IsNullOrWhiteSpace(report.exceptionText) ==>
              r.Some? &&
              var text := report.exceptionText.value;
              var k := IndexOfNewLine(text);
              (k > 0 ==> r.value == text[..k]) && (k <= 0 ==> r.value == text)
    // Otherwise nothing.
    ensures IsNullOrWhiteSpace(report.description) && IsNullOrWhiteSpace(report.exceptionText) ==> r.None?
  {
    if !IsNullOrWhiteSpace(report.description) then report.description
    else if !IsNullOrWhiteSpace(report.exceptionText) then
      var text := report.exceptionText.value;
      var newLineIndex := IndexOfNewLine(text);
      Some(if newLineIndex > 0 then text[..newLineIndex] else text)
    else None
  }

  /** When the exception text is used and its first character is not a line break, the
      description is exactly its first line: a non-empty prefix free of line breaks. */
  lemma DisplayedDescriptionIsFirstLine(report: HealthReport)
    requires IsNullOrWhiteSpace(report.description) && !IsNullOrWhiteSpace(report.exceptionText)
    requires report.exceptionText.value[0] != '\n' && report.exceptionText.value[0] != '\r'
    ensures DisplayedDescription(report).Some?
    ensures var d := DisplayedDescription(report).value;
            |d| > 0 && d <= report.exceptionText.value &&
            (forall i :: 0 <= i < |d| ==> d[i] != '\n' && d[i] != '\r') &&
            (|d| < |report.exceptionText.value| ==>
               report.exceptionText.value[|d|] == '\n' || report.exceptionText.value[|d|] == '\r')
  {
  }

  /** A `Value` of the resource snapshot: either a string or some other value, which the
      dashboard renders through its `ToString()` (JSON) form. */
  datatype PropertyValue = StringValue(s: string) | OtherValue(rendered: string)

  function ValueText(v: PropertyValue): string {
    match v
    case StringValue(s) => s
    case OtherValue(rendered) => rendered
  }

  datatype KnownProperty = KnownProperty(key: string, displayName: string)

  /** The state of a `ResourcePropertyViewModel` after construction. */
  datatype ResourceProperty = ResourceProperty(
    name: string,
    value: PropertyValue,
    isValueSensitive: bool,
    knownProperty: Option<KnownProperty>,
    priority: int,
    isValueMasked: bool,
    key: string)

  datatype ArgumentError = ArgumentNullOrWhiteSpace(paramName: string)

  /** Container images have a short id of 12 characters. */
  const ShortContainerIdLength := 12

  /** The `ResourcePropertyViewModel` constructor. */
  function NewResourceProperty(name: Option<string>, value: PropertyValue, isValueSensitive: bool,
                               knownProperty: Option<KnownProperty>, priority: int)
    : (r: Result<ResourceProperty, ArgumentError>)
    ensures IsNullOrWhiteSpace(name) <==> r.Err?
    ensures r.Ok? ==> r.value.name == name.value && r.value.value == value
    // Masking starts out as the sensitivity.
    ensures r.Ok? ==> r.value.isValueMasked == isValueSensitive
    // Known and unknown properties never share a key space.
    ensures r.Ok? && knownProperty.Some? ==> r.value.key == knownProperty.value.key
    ensures r.Ok? && knownProperty.None? ==> r.value.key == "unknown-" + name.value
  {
    if IsNullOrWhiteSpace(name) then Err(ArgumentNullOrWhiteSpace("name"))
    else
      var key := if knownProperty.Some? then knownProperty.value.key else "unknown-" + name.value;
      Ok(ResourceProperty(name.value, value, isValueSensitive, knownProperty, priority, isValueSensitive, key))
  }

  /** The grid name of a property: the known display name, else the raw name. */
  function GridName(p: ResourceProperty): (r: string)
    ensures p.knownProperty.Some? ==> r == p.knownProperty.value.displayName
    ensures p.knownProperty.None? ==> r == p.name
  {
    if p.knownProperty.Some? then p.knownProperty.value.displayName else p.name
  }

  /** The tooltip: the string value, or the rendered form of any other value. */
  function ToolTip(p: ResourceProperty): (r: string)
    ensures p.value.StringValue? ==> r == p.value.s
    ensures p.value.OtherValue? ==> r == p.value.rendered
  {
    ValueText(p.value)
  }

  /** The displayed value. `containerIdName` is `KnownProperties.Container.Id`; `formatDate`
      stands for "parse as ISO-8601 round-trip text and format in the current culture",
      returning `None` when the text is not such a date. */
  function DisplayValue(p: ResourceProperty, containerIdName: string, formatDate: string -> Option<string>): (r: string)
    ensures p.name == containerIdName ==>
              r <= ValueText(p.value) && |r| == if |ValueText(p.value)| > ShortContainerIdLength then ShortContainerIdLength else |ValueText(p.value)|
    ensures p.name != containerIdName ==> r == formatDate(ValueText(p.value)).GetOr(ValueText(p.value))
  {
    var value := ValueText(p.value);
    if p.name == containerIdName then
      if |value| > ShortContainerIdLength then value[..ShortContainerIdLength] else value
    else
      match formatDate(value)
      case Some(date) => date
      case None => value
  }

  /** The tooltip always holds the whole value: a container id's cell is a prefix of it, and any
      other value that is not a date is displayed exactly as its tooltip. */
  lemma ToolTipHoldsDisplayedValue(p: ResourceProperty, containerIdName: string, formatDate: string -> Option<string>)
    ensures p.name == containerIdName ==> DisplayValue(p, containerIdName, formatDate) <= ToolTip(p)
    ensures p.name != containerIdName && formatDate(ToolTip(p)).None? ==> DisplayValue(p, containerIdName, formatDate) == ToolTip(p)
  {
  }

  /** Toggling the mask (the property's public setter) changes nothing else. */
  function SetValueMasked(p: ResourceProperty, masked: bool): (r: ResourceProperty)
    ensures r.isValueMasked == masked
    ensures r.(isValueMasked := p.isValueMasked) == p
  {
    p.(isValueMasked := masked)
  }
}
