/**
  The `health_records` table that `/health-data` appends to. Rows are only ever
  inserted, one per accepted reading; none is updated or deleted.
 */
module RecordStore {
  import opened Values
  import opened Wrappers
  import opened Handlers
  import PyInt

  /** One row: the AUTOINCREMENT key, the time of the insert, the parsed heart
      rate, the blood pressure as it was sent, and the analysis. */
  datatype Record = Record(id: nat, timestamp: string, heartRate: int, bloodPressure: Json, status: string)

  /** What every row of the table satisfies: keys 1, 2, ... in insertion order
      (nothing is ever deleted), a heart rate in [0, 200] with its analysis, and
      a blood pressure that was present and bindable. */
  predicate WellFormed(rows: seq<Record>) {
    forall i :: 0 <= i < |rows| ==>
      && rows[i].id == i + 1
      && 0 <= rows[i].heartRate <= 200
      && rows[i].status == Classify(rows[i].heartRate)
      && Truthy(rows[i].bloodPressure) && Bindable(rows[i].bloodPressure)
  }

  /** The row written for an accepted reading. */
  function RowOf(id: nat, now: string, report: HealthReport): Record {
    Record(id, now, report.heartRate, report.bloodPressure, report.analysis)
  }

  /** The table after `/health-data` handled `req` at time `now`. */
  function Inserted(rows: seq<Record>, req: Request, now: string): seq<Record> {
    match Analyze(req)
    case Ok(report) => rows + [RowOf(|rows| + 1, now, report)]
    case _ => rows
  }

  /** A rejected request leaves the table as it was; an accepted one adds one
      row at the end, holding the parsed heart rate, the blood pressure as sent
      and its analysis, and leaves every earlier row as it was. */
  lemma InsertedAppendsOnlyOnSuccess(rows: seq<Record>, req: Request, now: string)
    ensures !Analyze(req).Ok? ==> Inserted(rows, req, now) == rows
    ensures Analyze(req).Ok? ==>
      && var d := Payload(req).value;
      && var after := Inserted(rows, req, now);
      && |after| == |rows| + 1
      && after[..|rows|] == rows
      && ToInt(Get(d, "heart_rate")) == Converted(after[|rows|].heartRate)
      && after[|rows|].bloodPressure == Get(d, "bp")
      && after[|rows|].status == Classify(after[|rows|].heartRate)
      && after[|rows|].timestamp == now
  {
    if Analyze(req).Ok? {
      assert (rows + [RowOf(|rows| + 1, now, Analyze(req).value)])[..|rows|] == rows;
    }
  }

  /** Inserting keeps the table well formed. */
  lemma InsertedKeepsShape(rows: seq<Record>, req: Request, now: string)
    requires WellFormed(rows)
    ensures WellFormed(Inserted(rows, req, now))
  {
  }

  /** The same accepted payload submitted twice gives two rows, with their own
      keys and timestamps and the same reading: nothing is deduplicated. */
  lemma NoDeduplication(rows: seq<Record>, req: Request, first: string, second: string)
    requires Analyze(req).Ok?
    ensures
      && var after := Inserted(Inserted(rows, req, first), req, second);
      && |after| == |rows| + 2
      && after[..|rows|] == rows
      && after[|rows|].id == |rows| + 1 && after[|rows| + 1].id == |rows| + 2
      && after[|rows|].timestamp == first && after[|rows| + 1].timestamp == second
      && after[|rows|].heartRate == after[|rows| + 1].heartRate
      && after[|rows|].bloodPressure == after[|rows| + 1].bloodPressure
  {
    InsertedAppendsOnlyOnSuccess(rows, req, first);
    var middle := Inserted(rows, req, first);
    InsertedAppendsOnlyOnSuccess(middle, req, second);
    var after := Inserted(middle, req, second);
    assert after[..|rows|] == middle[..|middle|][..|rows|];
  }

  /** The readings 72 and 150 are stored as Normal and High. */
  lemma SampleReadingsStored(rows: seq<Record>, now: string)
    ensures
      var req := Request(true, Some(JObject(map["heart_rate" := JInt(72), "bp" := JString("120/80")])));
      Inserted(rows, req, now) == rows + [Record(|rows| + 1, now, 72, JString("120/80"), "Normal")]
    ensures
      var req := Request(true, Some(JObject(map["heart_rate" := JInt(150), "bp" := JString("130/85")])));
      Inserted(rows, req, now) == rows + [Record(|rows| + 1, now, 150, JString("130/85"), "High (Tachycardia)")]
  {
  }

  /** A reading without a heart rate, or with the integer 0, is refused and not stored. */
  lemma SampleReadingsRefused(rows: seq<Record>, now: string)
    ensures
      var req := Request(true, Some(JObject(map["bp" := JString("120/80")])));
      Analyze(req) == Fail(400, "Heart rate and blood pressure are required") && Inserted(rows, req, now) == rows
    ensures
      var req := Request(true, Some(JObject(map["heart_rate" := JInt(0), "bp" := JString("120/80")])));
      Analyze(req) == Fail(400, "Heart rate and blood pressure are required") && Inserted(rows, req, now) == rows
  {
  }

  /** The string "0" is accepted as the heart rate 0, which the integer 0 is not. */
  lemma SampleZeroString()
    ensures
      var req := Request(true, Some(JObject(map["heart_rate" := JString("0"), "bp" := JString("120/80")])));
      Analyze(req) == Ok(HealthReport("Health data processed", 0, JString("120/80"), "Low (Bradycardia)"))
  {
    var req := Request(true, Some(JObject(map["heart_rate" := JString("0"), "bp" := JString("120/80")])));
    assert PyInt.Str(0) == "0";
    AnalyzeAcceptsDecimalString(req, 0);
  }

  /** The table itself, as the handler sees it across requests. */
  class HealthTable {
    var rows: seq<Record>

    ghost predicate Valid()
      reads this
    {
      WellFormed(rows)
    }

    constructor ()
      ensures Valid() && rows == []
    {
      rows := [];
    }

    /** `/health-data` handling `req` at time `now`: the reply, and one INSERT
        exactly when the reply is Ok. */
    method Submit(req: Request, now: string) returns (reply: Reply<HealthReport>)
      requires Valid()
      modifies this
      ensures Valid()
      ensures reply == Analyze(req)
      ensures rows == Inserted(old(rows), req, now)
      ensures reply.Ok? ==> |rows| == |old(rows)| + 1 && rows[..|old(rows)|] == old(rows)
      ensures !reply.Ok? ==> rows == old(rows)
    {
      reply := Analyze(req);
      InsertedKeepsShape(rows, req, now);
      InsertedAppendsOnlyOnSuccess(rows, req, now);
      if reply.Ok? {
        rows := rows + [RowOf(|rows| + 1, now, reply.value)];
      }
    }
  }
}
