/** The model-listing handlers (internal/api/models.go). */
module ModelsApi {
  import opened Wrappers
  import opened Text
  import opened OpenAI
  import opened ClaudeManager

  /** Creation time of every listed model: midnight UTC on 1 January 2024, in Unix seconds. */
  const BaseTimestamp := 1704067200

  predicate IsLeapYear(y: int)
  {
    y % 4 == 0 && (y % 100 != 0 || y % 400 == 0)
  }

  /** Days from 1970-01-01 to January 1st of year y (y >= 1970). */
  function DaysBeforeYear(y: int): nat
    requires y >= 1970
    decreases y
  {
    if y == 1970 then 0 else DaysBeforeYear(y - 1) + (if IsLeapYear(y - 1) then 366 else 365)
  }

  /** The base timestamp is midnight UTC on 2024-01-01. */
  lemma BaseTimestampIsNewYear2024()
    ensures BaseTimestamp == DaysBeforeYear(2024) * 86400
  {
    assert DaysBeforeYear(1980) == 3652;
    assert DaysBeforeYear(1990) == 7305;
    assert DaysBeforeYear(2000) == 10957;
    assert DaysBeforeYear(2010) == 14610;
    assert DaysBeforeYear(2020) == 18262;
    assert DaysBeforeYear(2024) == 19723;
  }

  /** A configured model: id, display name and description. */
  datatype ModelInfo = ModelInfo(id: string, name: string, description: string)

  const OwnerPrefix := "anthropic"

  /** The owner prefix of a model served by a CLI that reported its version. */
  const VersionedOwnerPrefix := OwnerPrefix + "-claude-"

  function OwnedBy(version: string): (owner: string)
    ensures HasPrefix(owner, OwnerPrefix)
    ensures version == "" <==> owner == OwnerPrefix
    ensures |owner| >= |version|
    ensures version != "" ==> owner[|owner| - |version|..] == version
    ensures version != "" ==>
              |owner| == |VersionedOwnerPrefix| + |version| && HasPrefix(owner, VersionedOwnerPrefix)
  {
    if version == "" then OwnerPrefix else VersionedOwnerPrefix + version
  }

  /** Distinct CLI versions are reported as distinct owners. */
  lemma OwnedByInjective(a: string, b: string)
    requires OwnedBy(a) == OwnedBy(b)
    ensures a == b
  {
    if a != "" && b != "" {
      assert OwnedBy(a)[|VersionedOwnerPrefix|..] == a;
      assert OwnedBy(b)[|VersionedOwnerPrefix|..] == b;
    }
  }

  /** The version string GetVersion reports, "" when it fails (the error is discarded). */
  function ReportedVersion(r: Result<string, string>): string
  {
    match r
    case Success(v) => v
    case Failure(_) => ""
  }

  /** HandleListModels: one model object per configured model, in config order, created base + index. */
  method ListModels(m: Manager, probe: ProbeOutcome, models: seq<ModelInfo>) returns (m': Manager, list: ModelList)
    ensures m' == GetVersion(m, probe).0
    ensures list.objectType == "list"
    ensures |list.data| == |models|
    ensures forall i :: 0 <= i < |models| ==>
              list.data[i] == ModelObject(models[i].id, "model", BaseTimestamp + i,
                                          OwnedBy(ReportedVersion(GetVersion(m, probe).1)))
  {
    var res := GetVersion(m, probe);
    m' := res.0;
    var ownedBy := OwnedBy(ReportedVersion(res.1));
    var data: seq<ModelObject> := [];
    var i := 0;
    while i < |models|
      invariant 0 <= i <= |models|
      invariant |data| == i
      invariant forall j :: 0 <= j < i ==> data[j] == ModelObject(models[j].id, "model", BaseTimestamp + j, ownedBy)
    {
      data := data + [ModelObject(models[i].id, "model", BaseTimestamp + i, ownedBy)];
      i := i + 1;
    }
    list := ModelList("list", data);
  }

  /** HandleGetModel: any requested id is echoed, unvalidated, with the base timestamp. */
  function GetModel(m: Manager, probe: ProbeOutcome, modelId: string): (res: (Manager, ModelObject))
    ensures res.0 == GetVersion(m, probe).0
    ensures res.1.id == modelId && res.1.objectType == "model" && res.1.created == BaseTimestamp
    ensures res.1.ownedBy == OwnedBy(ReportedVersion(GetVersion(m, probe).1))
  {
    var (m', v) := GetVersion(m, probe);
    (m', ModelObject(modelId, "model", BaseTimestamp, OwnedBy(ReportedVersion(v))))
  }

  datatype Capability = Capability(id: string, name: string, description: string, supportsStreaming: bool, supportsTools: bool)

  datatype CapabilitiesResponse = CapabilitiesResponse(models: seq<Capability>, total: int, provider: string, adapter: string)

  /** HandleModelCapabilities: one entry per configured model, all supporting streaming and tools. */
  method Capabilities(models: seq<ModelInfo>) returns (r: CapabilitiesResponse)
    ensures r.total == |r.models| == |models|
    ensures forall i :: 0 <= i < |models| ==>
              r.models[i] == Capability(models[i].id, models[i].name, models[i].description, true, true)
    ensures r.provider == "anthropic" && r.adapter == "claude-code-api"
  {
    var caps: seq<Capability> := [];
    for i := 0 to |models|
      invariant |caps| == i
      invariant forall j :: 0 <= j < i ==>
                  caps[j] == Capability(models[j].id, models[j].name, models[j].description, true, true)
    {
      var m := models[i];
      caps := caps + [Capability(m.id, m.name, m.description, true, true)];
    }
    r := CapabilitiesResponse(caps, |caps|, "anthropic", "claude-code-api");
  }
}
