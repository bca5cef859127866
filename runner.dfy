/** `ShiroSightRunner` of src/collector/main.py: its configuration, the
    check of the Athena parameters that follows construction, and the order
    in which `run` starts its collectors and reads their results back.

    The collectors and the uploader are not modelled beyond whether an
    Athena collector exists; their results are given to `Run`. */
module Runner {
  import opened Common

  const DefaultMaxConcurrentRequests := 10
  const MissingParamsPrefix := "The following parameters are required when collect_athena_logs is True: "
  const AthenaArityText := "AthenaLogsCollector.__init__() takes from 2 to 3 positional arguments but 5 were given"

  /** The names of the Athena parameters that are missing (falsy), in the
      order of the `required_athena_params` dictionary; none are checked
      when Athena logs are not collected. */
  function MissingAthenaParams(collectAthenaLogs: bool, bucket: Option<string>, prefix: Option<string>)
    : (missing: seq<string>)
    ensures !collectAthenaLogs ==> missing == []
    ensures "athena_s3_bucket" in missing <==> collectAthenaLogs && !TruthyText(bucket)
    ensures "athena_s3_prefix" in missing <==> collectAthenaLogs && !TruthyText(prefix)
    ensures |missing| <= 2 && (|missing| == 2 ==> missing == ["athena_s3_bucket", "athena_s3_prefix"])
  {
    if !collectAthenaLogs then []
    else (if TruthyText(bucket) then [] else ["athena_s3_bucket"]) +
         (if TruthyText(prefix) then [] else ["athena_s3_prefix"])
  }

  /** The `ValueError` text `__post_init__` raises, if any. */
  function AthenaParamsError(collectAthenaLogs: bool, bucket: Option<string>, prefix: Option<string>)
    : Option<string>
  {
    var missing := MissingAthenaParams(collectAthenaLogs, bucket, prefix);
    if missing == [] then None else Some(MissingParamsPrefix + Join(missing, ", "))
  }

  class ShiroSightRunner {
    var maxConcurrentRequests: int
    var collectAthenaLogs: bool
    /** `self.athena_collector` is an object (true) or `None` (false). */
    var hasAthenaCollector: bool
    var athenaS3Bucket: Option<string>
    var athenaS3Prefix: Option<string>
    var collectedLogsS3Bucket: Option<string>
    var profileName: Option<string>

    /** The field assignments of `__init__`: the Athena collector, bucket and
        prefix are kept only when Athena logs are collected.
        `maxConcurrentRequests` and `profileName` stand for the configuration
        of the CloudWatch collector `__init__` builds from them, and
        `collectedLogsS3Bucket` for that of the uploader. */
    constructor(maxConcurrentRequests: int, collectAthenaLogs: bool, athenaS3Bucket: Option<string>,
                athenaS3Prefix: Option<string>, collectedLogsS3Bucket: Option<string>, profileName: Option<string>)
      ensures this.maxConcurrentRequests == maxConcurrentRequests
      ensures this.collectAthenaLogs == collectAthenaLogs
      ensures this.hasAthenaCollector == collectAthenaLogs
      ensures this.athenaS3Bucket == (if collectAthenaLogs then athenaS3Bucket else None)
      ensures this.athenaS3Prefix == (if collectAthenaLogs then athenaS3Prefix else None)
      ensures this.collectedLogsS3Bucket == collectedLogsS3Bucket
      ensures this.profileName == profileName
    {
      this.maxConcurrentRequests := maxConcurrentRequests;
      this.collectAthenaLogs := collectAthenaLogs;
      if collectAthenaLogs {
        this.hasAthenaCollector := true;
        this.athenaS3Bucket := athenaS3Bucket;
        this.athenaS3Prefix := athenaS3Prefix;
      } else {
        this.hasAthenaCollector := false;
        this.athenaS3Bucket := None;
        this.athenaS3Prefix := None;
      }
      this.collectedLogsS3Bucket := collectedLogsS3Bucket;
      this.profileName := profileName;
    }

    /** `__post_init__`: the `ValueError` text, or `None` when it returns. */
    function PostInitError(): Option<string>
      reads this
    {
      AthenaParamsError(collectAthenaLogs, athenaS3Bucket, athenaS3Prefix)
    }

    /** Where `run` finds the uploader's result among the gathered results. */
    function S3ResultIndex(): (k: nat)
      reads this
      ensures k == |TaskOrder()| - 1
    {
      if hasAthenaCollector then 2 else 1
    }

    /** The tasks `run` gathers, by name, in the order it starts them. */
    function TaskOrder(): seq<string>
      reads this
    {
      ["cloudwatch"] + (if hasAthenaCollector then ["athena"] else []) + ["s3"]
    }

    /** `run`: starts the CloudWatch collector, the Athena collector when
        there is one, and the uploader, gathers their results in that order
        and hands each back under its own name. */
    method Run<T>(cloudwatchResult: T, athenaResult: T, s3Result: T) returns (cloudwatchLogs: T, athenaLogs: Option<T>, s3Logs: T)
      ensures cloudwatchLogs == cloudwatchResult
      ensures athenaLogs == (if hasAthenaCollector then Some(athenaResult) else None)
      ensures s3Logs == s3Result
    {
      var results := [cloudwatchResult];
      if hasAthenaCollector {
        results := results + [athenaResult];
      }
      results := results + [s3Result];
      cloudwatchLogs := results[0];
      athenaLogs := if hasAthenaCollector then Some(results[1]) else None;
      s3Logs := results[S3ResultIndex()];
    }
  }

  /** `ShiroSightRunner(...)`: the runner, or the `ValueError` its
      `__post_init__` raises. */
  method NewRunner(maxConcurrentRequests: int, collectAthenaLogs: bool, athenaS3Bucket: Option<string>,
                   athenaS3Prefix: Option<string>, collectedLogsS3Bucket: Option<string>, profileName: Option<string>)
    returns (r: Result<ShiroSightRunner, string>)
    ensures r.Err? <==> collectAthenaLogs && (!TruthyText(athenaS3Bucket) || !TruthyText(athenaS3Prefix))
    ensures r.Err? ==> Some(r.error) == AthenaParamsError(collectAthenaLogs, athenaS3Bucket, athenaS3Prefix)
    ensures r.Ok? ==> fresh(r.value) && r.value.hasAthenaCollector == collectAthenaLogs
  {
    var runner := new ShiroSightRunner(maxConcurrentRequests, collectAthenaLogs, athenaS3Bucket, athenaS3Prefix,
                                       collectedLogsS3Bucket, profileName);
    var error := runner.PostInitError();
    if error.Some? {
      r := Err(error.value);
    } else {
      r := Ok(runner);
    }
  }

  /** The check fails exactly when Athena logs are collected and the bucket
      or the prefix is falsy (`None` and `""` alike), and the text lists the
      missing names joined by ", ". */
  lemma AthenaParamsErrorText(collectAthenaLogs: bool, bucket: Option<string>, prefix: Option<string>)
    ensures AthenaParamsError(collectAthenaLogs, bucket, prefix).Some? <==>
            collectAthenaLogs && (!TruthyText(bucket) || !TruthyText(prefix))
    ensures collectAthenaLogs && !TruthyText(bucket) && TruthyText(prefix) ==>
            AthenaParamsError(collectAthenaLogs, bucket, prefix) == Some(MissingParamsPrefix + "athena_s3_bucket")
    ensures collectAthenaLogs && TruthyText(bucket) && !TruthyText(prefix) ==>
            AthenaParamsError(collectAthenaLogs, bucket, prefix) == Some(MissingParamsPrefix + "athena_s3_prefix")
    ensures collectAthenaLogs && !TruthyText(bucket) && !TruthyText(prefix) ==>
            AthenaParamsError(collectAthenaLogs, bucket, prefix)
            == Some(MissingParamsPrefix + "athena_s3_bucket, athena_s3_prefix")
  {
    var missing := MissingAthenaParams(collectAthenaLogs, bucket, prefix);
    if |missing| == 2 {
      assert missing[1..] == ["athena_s3_prefix"];
      assert Join(missing, ", ") == "athena_s3_bucket" + ", " + "athena_s3_prefix";
      assert "athena_s3_bucket" + ", " + "athena_s3_prefix" == "athena_s3_bucket, athena_s3_prefix";
    }
  }

  /** What `ShiroSightRunner(...)` raises as the file is written: `__init__`
      hands four arguments to `AthenaLogsCollector`, whose constructor takes
      at most two, so whenever Athena logs are collected a `TypeError` is
      raised before `__post_init__` can run. */
  function ConstructionErrorAsWritten(collectAthenaLogs: bool, bucket: Option<string>, prefix: Option<string>)
    : (r: Option<string>)
    ensures collectAthenaLogs ==> r == Some(AthenaArityText)
    ensures !collectAthenaLogs ==> r.None?
  {
    if collectAthenaLogs then Some(AthenaArityText) else AthenaParamsError(collectAthenaLogs, bucket, prefix)
  }

  /** As written, the missing-parameter check is unreachable: wherever it
      would raise, the constructor has already raised a different text. With
      Athena logs collected and neither bucket nor prefix given, the
      intended `ValueError` names both parameters, but the `TypeError` is
      what the caller sees. */
  lemma MissingParamsUnreachableAsWritten(collectAthenaLogs: bool, bucket: Option<string>, prefix: Option<string>)
    ensures AthenaParamsError(collectAthenaLogs, bucket, prefix).Some? ==>
            ConstructionErrorAsWritten(collectAthenaLogs, bucket, prefix).Some? &&
            ConstructionErrorAsWritten(collectAthenaLogs, bucket, prefix) != AthenaParamsError(collectAthenaLogs, bucket, prefix)
    ensures ConstructionErrorAsWritten(true, None, None) == Some(AthenaArityText)
    ensures AthenaParamsError(true, None, None) == Some(MissingParamsPrefix + "athena_s3_bucket, athena_s3_prefix")
  {
    AthenaParamsErrorText(true, None, None);
    var e := AthenaParamsError(collectAthenaLogs, bucket, prefix);
    if e.Some? {
      assert |MissingParamsPrefix| == 72 && |AthenaArityText| == 86;
      assert |e.value| >= 72 + 16;
    }
  }
}
