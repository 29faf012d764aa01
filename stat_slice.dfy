/** The `orderStats` slice of src/redux/slice/stat.slice.ts: order counts per
    status. The thunk renames the response's keys into the slice's own record;
    each count is the response value when truthy and 0 otherwise. Response values
    are integers or JSON null (`None`); a key may be missing. */
module StatSlice {
  import opened Common

  /** The mapped counts. `noStatus` is the count the response reports under "null". */
  datatype Stats = Stats(total: int, New: int, inWork: int, aggre: int, disaggre: int, dubbing: int, noStatus: int)

  /** `data[key] || 0` */
  function CountOr0(data: map<string, Option<int>>, key: string): (r: int)
    ensures key in data && data[key].Some? ==> r == data[key].value
    ensures key !in data || data[key].None? ==> r == 0
  {
    if key in data && data[key].Some? && data[key].value != 0 then data[key].value else 0
  }

  /** The keys of the response the mapping reads. */
  const StatKeys: set<string> := {"total", "New", "In work", "Aggre", "Disaggre", "Dubbing", "null"}

  /** A count `v` read under `key`: a non-zero count is the response's own value
      under that key, and a key the response lacks gives 0. */
  predicate ReadFrom(data: map<string, Option<int>>, key: string, v: int)
  {
    (v != 0 ==> key in data && data[key] == Some(v)) && (key !in data ==> v == 0)
  }

  /** The `mappedStats` object built from the response: each field is read from
      its own key, and a response without any of the seven keys gives all zeros. */
  function MapStats(data: map<string, Option<int>>): (r: Stats)
    ensures ReadFrom(data, "total", r.total) && ReadFrom(data, "New", r.New)
    ensures ReadFrom(data, "In work", r.inWork) && ReadFrom(data, "Aggre", r.aggre)
    ensures ReadFrom(data, "Disaggre", r.disaggre) && ReadFrom(data, "Dubbing", r.dubbing)
    ensures ReadFrom(data, "null", r.noStatus)
    ensures data.Keys !! StatKeys ==> r == Stats(0, 0, 0, 0, 0, 0, 0)
  {
    Stats(CountOr0(data, "total"), CountOr0(data, "New"), CountOr0(data, "In work"), CountOr0(data, "Aggre"),
          CountOr0(data, "Disaggre"), CountOr0(data, "Dubbing"), CountOr0(data, "null"))
  }

  /** Each field takes its value from its own response key: "In work" becomes
      `inWork`, "Aggre" `aggre`, "Disaggre" `disaggre`, "Dubbing" `dubbing`; a
      missing or null value gives 0. */
  lemma MappingRenamesKeys(data: map<string, Option<int>>, n: int)
    ensures MapStats(data["In work" := Some(n)]).inWork == n
    ensures MapStats(data["Aggre" := Some(n)]).aggre == n
    ensures MapStats(data["Disaggre" := Some(n)]).disaggre == n
    ensures MapStats(data["Dubbing" := Some(n)]).dubbing == n
    ensures MapStats(data["total" := Some(n)]).total == n
    ensures MapStats(data["New" := Some(n)]).New == n
    ensures MapStats(data["null" := Some(n)]).noStatus == n
    ensures MapStats(map[]) == Stats(0, 0, 0, 0, 0, 0, 0)
  {
  }

  /** No other key is copied: changing, adding or removing any key outside the seven
      (the slice's own names "in_work" or "aggre" included) leaves the result as it was. */
  lemma OtherKeysIgnored(data: map<string, Option<int>>, key: string, value: Option<int>)
    requires key !in StatKeys
    ensures MapStats(data[key := value]) == MapStats(data)
    ensures MapStats(data - {key}) == MapStats(data)
  {
  }

  /** The rejection message: the response's `detail` when truthy, else a fixed text. */
  function StatsError(detail: Option<string>): (r: string)
    ensures Truthy(detail) ==> r == detail.value
    ensures !Truthy(detail) ==> r == "Failed to fetch stats"
  {
    OrElse(detail, "Failed to fetch stats")
  }

  datatype StatsFields = StatsFields(stats: Option<Stats>, loading: bool, error: Option<string>)

  class StatsState {
    var stats: Option<Stats>
    var loading: bool
    var error: Option<string>

    function Fields(): StatsFields
      reads this
    {
      StatsFields(stats, loading, error)
    }

    constructor ()
      ensures Fields() == StatsFields(None, false, None)
    {
      stats := None;
      loading := false;
      error := None;
    }

    /** `pending`: the previous stats stay on screen while loading. */
    method Pending()
      modifies this
      ensures Fields() == old(Fields()).(loading := true, error := None)
    {
      loading := true;
      error := None;
    }

    /** `fulfilled` with the mapped response; `error` is not touched. */
    method Fulfilled(data: map<string, Option<int>>)
      modifies this
      ensures Fields() == old(Fields()).(loading := false, stats := Some(MapStats(data)))
    {
      loading := false;
      stats := Some(MapStats(data));
    }

    /** `rejected`: the previous stats are kept. */
    method Rejected(detail: Option<string>)
      modifies this
      ensures Fields() == old(Fields()).(loading := false, error := Some(StatsError(detail)))
    {
      loading := false;
      error := Some(StatsError(detail));
    }
  }
}
