/** The respondent table and the survey API routes that write to it: init,
    submit-block, terminate and complete. The table is a map from
    respondent_id to the record's columns; the clock, the User-Agent header and
    store failures are inputs of each route. Timestamps are integer
    milliseconds. */
module Respondents {
  import opened Common
  import DeviceDetect
  import QualityFlags

  /** An HTTP reply: its status and its JSON body. */
  datatype Reply = Reply(status: nat, body: Record)

  function ErrorReply(status: nat, msg: string): Reply
  {
    Reply(status, map["error" := Str(msg)])
  }

  const SUCCESS: Reply := Reply(200, map["success" := Bool(true)])

  /** How the insert of a new row ends. */
  datatype InsertOutcome = Inserted | UniqueViolation | InsertError

  /** `Math.round(ms / 1000)`: JavaScript rounds halves up, so this is
      floor((ms + 500) / 1000). */
  function RoundToSeconds(ms: int): (s: int)
    ensures -500 <= ms - s * 1000 < 500
  {
    (ms + 500) / 1000
  }

  /** Rounding to seconds is the nearest whole second, and exact on whole seconds. */
  lemma RoundToSecondsNearest(ms: int, k: int)
    ensures RoundToSeconds(k * 1000) == k
    ensures RoundToSeconds(ms) * 1000 - 500 <= ms < RoundToSeconds(ms) * 1000 + 500
  {
  }

  /** The duration written to a record: whole seconds between the stored start
      and `now`; a start that is not a timestamp gives NaN, stored as null.
      A null start is also read as NaN here, whereas `new Date(null)` is the
      epoch; no route can store a null start, since start_timestamp is a
      column default set when the row is inserted. */
  function DurationSeconds(start: Option<Value>, now: int): (v: Value)
    ensures v.Num? <==> start.Some? && start.value.Num?
    ensures v.Num? ==> -500 <= (now - start.value.n) - v.n * 1000 < 500
  {
    if start.Some? && start.value.Num? then Num(RoundToSeconds(now - start.value.n)) else Null
  }

  /** The row init inserts. start_timestamp and completion_status are the
      table's column defaults (insertion time and 'in_progress'). */
  function NewRecord(rid: string, src: Option<string>, phase: Value, ua: Option<string>, now: int): (r: Record)
  {
    map[
      "respondent_id" := Str(rid),
      "panel_source" := Str(if src.Some? && src.value != "" then src.value else "direct"),
      "phase" := phase,
      "device_type" := Str(DeviceDetect.DeviceName(DeviceDetect.DetectDevice(if ua.Some? then ua.value else ""))),
      "current_block" := Str("consent"),
      "start_timestamp" := Num(now),
      "completion_status" := Str("in_progress")
    ]
  }

  /** submit-block's update: the block's fields, plus current_block when one is given. */
  function SubmitPatch(data: Record, currentBlock: Option<Value>): (p: Record)
    ensures p.Keys == data.Keys + (if currentBlock.Some? && Truthy(currentBlock.value) then {"current_block"} else {})
    ensures forall k :: k in data && k != "current_block" ==> p[k] == data[k]
    ensures currentBlock.Some? && Truthy(currentBlock.value) ==> p["current_block"] == currentBlock.value
  {
    if currentBlock.Some? && Truthy(currentBlock.value) then data["current_block" := currentBlock.value] else data
  }

  /** terminate's update: the block's fields, overridden by the status, the
      termination point and the end time, and by the duration when the record
      was found. */
  function TerminatePatch(data: Record, point: Value, now: int, found: Option<Record>): (p: Record)
    ensures {"completion_status", "termination_point", "end_timestamp"} <= p.Keys
    ensures p["completion_status"] == Str("terminated") && p["termination_point"] == point
    ensures p["end_timestamp"] == Num(now)
    ensures found.Some? ==>
              "duration_seconds" in p && p["duration_seconds"] == DurationSeconds(Get(found.value, "start_timestamp"), now)
    ensures found.None? ==> ("duration_seconds" in p <==> "duration_seconds" in data)
    ensures forall k :: k in data && k !in {"completion_status", "termination_point", "end_timestamp", "duration_seconds"} ==>
              k in p && p[k] == data[k]
    ensures p.Keys <= data.Keys + {"completion_status", "termination_point", "end_timestamp", "duration_seconds"}
  {
    var base := data + map["completion_status" := Str("terminated"), "termination_point" := point, "end_timestamp" := Num(now)];
    if found.Some? then base["duration_seconds" := DurationSeconds(Get(found.value, "start_timestamp"), now)] else base
  }

  /** complete's final update, computed from the stored record. */
  function CompletePatch(rec: Record, now: int): Record
  {
    var d := DurationSeconds(Get(rec, "start_timestamp"), now);
    var f := QualityFlags.ComputeQualityFlags(rec["duration_seconds" := d]);
    map[
      "completion_status" := Str("complete"),
      "end_timestamp" := Num(now),
      "duration_seconds" := d,
      "current_block" := Str("complete"),
      "qc_speeder" := Num(f.speeder),
      "qc_straightliner_k1" := Num(f.straightlinerK1),
      "qc_straightliner_k2" := Num(f.straightlinerK2),
      "qc_gibberish_nps" := Num(f.gibberishNps),
      "qc_gibberish_l1a" := Num(f.gibberishL1a),
      "qc_gibberish_l2a" := Num(f.gibberishL2a)]
  }

  /** The speeder flag of a completion is decided by the duration just
      computed, not by any duration stored earlier: it is set exactly when the
      respondent took less than 179.5 seconds. */
  lemma CompleteSpeederUsesNewDuration(rec: Record, now: int)
    requires "start_timestamp" in rec && rec["start_timestamp"].Num?
    ensures CompletePatch(rec, now)["qc_speeder"] == Num(1) <==> now - rec["start_timestamp"].n < 179500
  {
    var d := DurationSeconds(Get(rec, "start_timestamp"), now);
    var r := rec["duration_seconds" := d];
    assert QualityFlags.IsSpeeder(r) <==> d.n < 180;
  }

  /** The record after complete's first, failure-tolerant merge of the last block. */
  function MergeBlock(rec: Record, data: Record, mergeFails: bool): Record
  {
    if |data| > 0 && !mergeFails then rec + data else rec
  }

  class RespondentTable {
    var rows: map<string, Record>

    constructor (rows0: map<string, Record>)
      ensures rows == rows0
    {
      rows := rows0;
    }

    /** `.update(patch).eq('respondent_id', rid)`: merges the patch into the row
        when there is one; a missing row is no error and changes nothing. */
    method Update(rid: string, patch: Record, fails: bool) returns (ok: bool)
      modifies this
      ensures ok == !fails
      ensures rows == if ok && rid in old(rows) then old(rows)[rid := old(rows)[rid] + patch] else old(rows)
    {
      if fails {
        return false;
      }
      if rid in rows {
        rows := rows[rid := rows[rid] + patch];
      }
      return true;
    }

    /** POST /api/survey/init */
    method Init(rid: Option<string>, src: Option<string>, phase: Option<Value>, ua: Option<string>,
                now: int, insert: InsertOutcome) returns (reply: Reply)
      modifies this
      ensures (rid.None? || rid.value == "" || !(phase.Some? && Truthy(phase.value))) ==>
                reply == ErrorReply(400, "Missing required parameters") && rows == old(rows)
      ensures rid.Some? && rid.value != "" && phase.Some? && Truthy(phase.value) ==>
                if rid.value in old(rows) then
                  reply == ErrorReply(409, "duplicate") && rows == old(rows)
                else if insert == Inserted then
                  reply == SUCCESS && rows == old(rows)[rid.value := NewRecord(rid.value, src, phase.value, ua, now)]
                else
                  rows == old(rows) &&
                  reply == (if insert == UniqueViolation then ErrorReply(409, "duplicate") else ErrorReply(500, "Database error"))
    {
      if rid.None? || rid.value == "" || !(phase.Some? && Truthy(phase.value)) {
        return ErrorReply(400, "Missing required parameters");
      }
      if rid.value in rows {
        return ErrorReply(409, "duplicate");
      }
      if insert == UniqueViolation {
        return ErrorReply(409, "duplicate");
      } else if insert == InsertError {
        return ErrorReply(500, "Database error");
      }
      rows := rows[rid.value := NewRecord(rid.value, src, phase.value, ua, now)];
      return SUCCESS;
    }

    /** POST /api/survey/submit-block. The record's completion_status is not consulted. */
    method SubmitBlock(rid: Option<string>, block: Option<Value>, data: Record, currentBlock: Option<Value>,
                       fails: bool) returns (reply: Reply)
      modifies this
      ensures (rid.None? || rid.value == "" || !(block.Some? && Truthy(block.value))) ==>
                reply == ErrorReply(400, "Missing required fields") && rows == old(rows)
      ensures rid.Some? && rid.value != "" && block.Some? && Truthy(block.value) ==>
                reply == (if fails then ErrorReply(500, "Database error") else SUCCESS) &&
                rows == if !fails && rid.value in old(rows)
                        then old(rows)[rid.value := old(rows)[rid.value] + SubmitPatch(data, currentBlock)]
                        else old(rows)
    {
      if rid.None? || rid.value == "" || !(block.Some? && Truthy(block.value)) {
        return ErrorReply(400, "Missing required fields");
      }
      var ok := Update(rid.value, SubmitPatch(data, currentBlock), fails);
      if !ok {
        return ErrorReply(500, "Database error");
      }
      return SUCCESS;
    }

    /** POST /api/survey/terminate. The prior completion_status is not consulted.
        `readFails` stands for a failed read of start_timestamp: the row is then
        not found and no duration is written; `fails` for a failed update. */
    method Terminate(rid: Option<string>, point: Option<Value>, data: Record, now: int,
                     readFails: bool, fails: bool) returns (reply: Reply)
      modifies this
      ensures (rid.None? || rid.value == "" || !(point.Some? && Truthy(point.value))) ==>
                reply == ErrorReply(400, "Missing required fields") && rows == old(rows)
      ensures rid.Some? && rid.value != "" && point.Some? && Truthy(point.value) ==>
                reply == (if fails then ErrorReply(500, "Database error") else SUCCESS) &&
                rows == if !fails && rid.value in old(rows)
                        then old(rows)[rid.value := old(rows)[rid.value] +
                               TerminatePatch(data, point.value, now,
                                              if readFails then None else Some(old(rows)[rid.value]))]
                        else old(rows)
    {
      if rid.None? || rid.value == "" || !(point.Some? && Truthy(point.value)) {
        return ErrorReply(400, "Missing required fields");
      }
      var found := if !readFails && rid.value in rows then Some(rows[rid.value]) else None;
      var patch := TerminatePatch(data, point.value, now, found);
      var ok := Update(rid.value, patch, fails);
      if !ok {
        return ErrorReply(500, "Database error");
      }
      return SUCCESS;
    }

    /** complete's first step: the last block's data, when there is any, is
        merged into the row; a failed merge is ignored. */
    method MergeLastBlock(id: string, data: Record, mergeFails: bool)
      modifies this
      ensures rows == if id in old(rows) then old(rows)[id := MergeBlock(old(rows)[id], data, mergeFails)] else old(rows)
    {
      if |data| > 0 {
        var _ := Update(id, data, mergeFails);
      }
    }

    /** POST /api/survey/complete: merges the last block's data (ignoring a
        failure), reads the record back, and writes status, end time, duration
        and the six quality flags. `readFails` stands for an error on that
        read, which answers 404 like a missing row. */
    method Complete(rid: Option<string>, data: Record, now: int, mergeFails: bool, readFails: bool, fails: bool)
      returns (reply: Reply)
      modifies this
      ensures (rid.None? || rid.value == "") ==> reply == ErrorReply(400, "Missing respondent_id") && rows == old(rows)
      ensures rid.Some? && rid.value != "" && rid.value !in old(rows) ==>
                reply == ErrorReply(404, "Respondent not found") && rows == old(rows)
      ensures rid.Some? && rid.value != "" && rid.value in old(rows) && readFails ==>
                reply == ErrorReply(404, "Respondent not found") &&
                rows == old(rows)[rid.value := MergeBlock(old(rows)[rid.value], data, mergeFails)]
      ensures rid.Some? && rid.value != "" && rid.value in old(rows) && !readFails ==>
                var merged := MergeBlock(old(rows)[rid.value], data, mergeFails);
                var d := DurationSeconds(Get(merged, "start_timestamp"), now);
                if fails then
                  reply == ErrorReply(500, "Database error") && rows == old(rows)[rid.value := merged]
                else
                  reply == Reply(200, map["success" := Bool(true), "duration" := d]) &&
                  rows == old(rows)[rid.value := merged + CompletePatch(merged, now)]
    {
      if rid.None? || rid.value == "" {
        return ErrorReply(400, "Missing respondent_id");
      }
      var id := rid.value;
      MergeLastBlock(id, data, mergeFails);
      if readFails || id !in rows {
        return ErrorReply(404, "Respondent not found");
      }
      var respondent := rows[id];
      var duration := DurationSeconds(Get(respondent, "start_timestamp"), now);
      var ok := Update(id, CompletePatch(respondent, now), fails);
      if !ok {
        return ErrorReply(500, "Database error");
      }
      return Reply(200, map["success" := Bool(true), "duration" := duration]);
    }
  }

  // ---------------------------------------------------------------------------
  // POST /api/zip-lookup

  datatype ZipRow = ZipRow(dma: Value, state: Value)

  predicate IsFiveDigits(s: string)
  {
    |s| == 5 && forall i :: 0 <= i < 5 ==> '0' <= s[i] <= '9'
  }

  /** Validates the format, then looks the ZIP up in the table; `lookupFails`
      stands for a store error. */
  function ZipLookup(zip: Option<string>, table: map<string, ZipRow>, lookupFails: bool): (reply: Reply)
    ensures reply.status == 200 && "valid" in reply.body
    ensures reply.body["valid"] == Bool(true) <==>
              zip.Some? && IsFiveDigits(zip.value) && zip.value in table && !lookupFails
    ensures zip.None? || !IsFiveDigits(zip.value) ==> reply.body == map["valid" := Bool(false), "error" := Str("Invalid ZIP format")]
    ensures zip.Some? && IsFiveDigits(zip.value) && (lookupFails || zip.value !in table) ==>
              reply.body == map["valid" := Bool(false)]
    ensures reply.body["valid"] == Bool(true) ==>
              reply.body == map["valid" := Bool(true), "dma" := table[zip.value].dma, "state" := table[zip.value].state]
  {
    if zip.None? || zip.value == "" || !IsFiveDigits(zip.value) then
      Reply(200, map["valid" := Bool(false), "error" := Str("Invalid ZIP format")])
    else if lookupFails || zip.value !in table then
      Reply(200, map["valid" := Bool(false)])
    else
      var row := table[zip.value];
      Reply(200, map["valid" := Bool(true), "dma" := row.dma, "state" := row.state])
  }
}
