/**
 * binance_logger.py: a formatter that projects a log record onto a
 * key-to-attribute dictionary, and the verbosity mapping of `init_logger`.
 * A log record is modelled by its attribute dictionary (`record.__dict__`);
 * the strings the logging library renders (the message, the time, the
 * exception and stack text) are parameters.
 */
module BinanceLogger {
  import opened Outcomes
  import opened Json

  // The levels of Python's logging module.
  const DEBUG: int := 10
  const INFO: int := 20
  const WARNING: int := 30
  const ERROR: int := 40

  /** The format dictionary used when none is given. */
  const DefaultFmtDict: map<string, string> := map["message" := "message"]

  /** `"asctime" in fmt_dict.values()`. */
  predicate UsesTime(fmtDict: map<string, string>)
    ensures UsesTime(fmtDict) <==> exists k :: k in fmtDict && fmtDict[k] == "asctime"
  {
    "asctime" in fmtDict.Values
  }

  /**
   * `formatMessage`: one entry per format key, holding the record attribute
   * its value names; a name the record lacks raises KeyError. The failure
   * carries the names that are missing.
   */
  function FormatMessage(fmtDict: map<string, string>, attrs: map<string, Json>): (r: Result<map<string, Json>, set<string>>)
    ensures r.Success? <==> forall k :: k in fmtDict ==> fmtDict[k] in attrs
    ensures r.Success? ==> r.value.Keys == fmtDict.Keys
    ensures r.Success? ==> forall k :: k in fmtDict ==> r.value[k] == attrs[fmtDict[k]]
    ensures r.Failure? ==> r.error != {} && forall a :: a in r.error <==> a in fmtDict.Values && a !in attrs
  {
    if fmtDict.Values <= attrs.Keys then
      Success(map k | k in fmtDict :: attrs[fmtDict[k]])
    else
      var missing := fmtDict.Values - attrs.Keys;
      assert exists a :: a in missing by {
        var a :| a in fmtDict.Values && a !in attrs.Keys;
        assert a in missing;
      }
      Failure(missing)
  }

  /** The attributes after `format` set `message` and, when the format uses it, `asctime`. */
  function Prepared(fmtDict: map<string, string>, attrs: map<string, Json>, message: string, asctime: string): map<string, Json>
  {
    var withMessage := attrs["message" := JStr(message)];
    if UsesTime(fmtDict) then withMessage["asctime" := JStr(asctime)] else withMessage
  }

  /** `exc_text` after the caching step: rendered only if there is an exception and no cached text. */
  function CachedExcText(attrs: map<string, Json>, excText: string): Json
    requires "exc_info" in attrs && "exc_text" in attrs
  {
    if Truthy(attrs["exc_info"]) && !Truthy(attrs["exc_text"]) then JStr(excText) else attrs["exc_text"]
  }

  /** The message dictionary with `exc_info` and `stack_info` added as `format` adds them. */
  function WithExtras(md: map<string, Json>, attrs: map<string, Json>, stackText: string): (r: map<string, Json>)
    requires "exc_text" in attrs && "stack_info" in attrs
    ensures r.Keys == md.Keys + (if Truthy(attrs["exc_text"]) then {"exc_info"} else {})
                              + (if Truthy(attrs["stack_info"]) then {"stack_info"} else {})
    ensures Truthy(attrs["exc_text"]) ==> r["exc_info"] == attrs["exc_text"]
    ensures Truthy(attrs["stack_info"]) ==> r["stack_info"] == JStr(stackText)
    ensures forall k :: k in md && k != "exc_info" && k != "stack_info" ==> r[k] == md[k]
  {
    var withExc := if Truthy(attrs["exc_text"]) then md["exc_info" := attrs["exc_text"]] else md;
    if Truthy(attrs["stack_info"]) then withExc["stack_info" := JStr(stackText)] else withExc
  }

  /** A log record, by its attribute dictionary; a record always has the three exception/stack attributes. */
  class LogRecord {
    var attrs: map<string, Json>

    ghost predicate Valid()
      reads this
    {
      "exc_info" in attrs && "exc_text" in attrs && "stack_info" in attrs
    }

    constructor(attrs: map<string, Json>)
      requires "exc_info" in attrs && "exc_text" in attrs && "stack_info" in attrs
      ensures Valid() && this.attrs == attrs
    {
      this.attrs := attrs;
    }
  }

  class JsonFormatter {
    const fmtDict: map<string, string>
    const defaultTimeFormat: string
    const defaultMsecFormat: string
    const datefmt: Option<string>

    /** `fmt_dict` defaults to `{"message": "message"}` only when it is `None`; an empty dict stays empty. */
    constructor(fmtDict: Option<map<string, string>>, timeFormat: string, msecFormat: string)
      ensures this.fmtDict == if fmtDict.Some? then fmtDict.value else DefaultFmtDict
      ensures defaultTimeFormat == timeFormat && defaultMsecFormat == msecFormat && datefmt == None
    {
      this.fmtDict := if fmtDict.Some? then fmtDict.value else DefaultFmtDict;
      defaultTimeFormat := timeFormat;
      defaultMsecFormat := msecFormat;
      datefmt := None;
    }

    /**
     * `format(record)` up to the JSON encoding: set `record.message` (and
     * `record.asctime` when the format uses it), project the record, cache
     * the exception text, and add `exc_info` when that text is non-empty and
     * `stack_info` when the record has one. `message`, `asctime`, `excText`
     * and `stackText` are what getMessage, formatTime, formatException and
     * formatStack return.
     */
    method Format(record: LogRecord, message: string, asctime: string, excText: string, stackText: string)
      returns (r: Result<map<string, Json>, set<string>>)
      requires record.Valid()
      modifies record
      ensures record.Valid()
      ensures var p := Prepared(fmtDict, old(record.attrs), message, asctime);
              match FormatMessage(fmtDict, p)
              case Failure(missing) => r == Failure(missing) && record.attrs == p
              case Success(md) =>
                && record.attrs == p["exc_text" := CachedExcText(p, excText)]
                && r == Success(WithExtras(md, record.attrs, stackText))
      ensures r.Success? ==>
                r.value.Keys == fmtDict.Keys + (if Truthy(record.attrs["exc_text"]) then {"exc_info"} else {})
                                             + (if Truthy(record.attrs["stack_info"]) then {"stack_info"} else {})
    {
      record.attrs := record.attrs["message" := JStr(message)];
      if UsesTime(fmtDict) {
        record.attrs := record.attrs["asctime" := JStr(asctime)];
      }
      var projected := FormatMessage(fmtDict, record.attrs);
      if projected.Failure? {
        return projected;
      }
      var messageDict := projected.value;
      if Truthy(record.attrs["exc_info"]) {
        if !Truthy(record.attrs["exc_text"]) {
          record.attrs := record.attrs["exc_text" := JStr(excText)];
        }
      }
      if Truthy(record.attrs["exc_text"]) {
        messageDict := messageDict["exc_info" := record.attrs["exc_text"]];
      }
      if Truthy(record.attrs["stack_info"]) {
        messageDict := messageDict["stack_info" := JStr(stackText)];
      }
      r := Success(messageDict);
    }
  }

  /** The default formatter renders just the message. */
  lemma DefaultFormatsMessage(attrs: map<string, Json>, message: string, asctime: string)
    ensures FormatMessage(DefaultFmtDict, Prepared(DefaultFmtDict, attrs, message, asctime))
            == Success(map["message" := JStr(message)])
  {
    forall v | v in DefaultFmtDict.Values ensures v == "message" {
      var k :| k in DefaultFmtDict && DefaultFmtDict[k] == v;
    }
    assert !UsesTime(DefaultFmtDict);
    var p := Prepared(DefaultFmtDict, attrs, message, asctime);
    assert p["message"] == JStr(message);
    assert DefaultFmtDict.Keys == {"message"};
    var r := FormatMessage(DefaultFmtDict, p);
    assert r.Success? && r.value.Keys == {"message"} && r.value["message"] == JStr(message);
    assert r.value == map["message" := JStr(message)];
  }

  /** The format dictionary of the file handler's formatter in `init_logger`. */
  const FileFmtDict: map<string, string> := map[
    "timestamp" := "asctime",
    "process_id" := "process",
    "process_name" := "processName",
    "thread_id" := "thread",
    "thread_name" := "threadName",
    "logger_name" := "name",
    "line_num" := "lineno",
    "file_name" := "filename",
    "func_name" := "funcName",
    "level" := "levelname",
    "message" := "message"
  ]

  /** The root logger; handlers are left out. */
  class RootLogger {
    var level: int

    constructor(level: int)
      ensures this.level == level
    {
      this.level := level;
    }

    method SetLevel(level: int)
      modifies this
      ensures this.level == level
    {
      this.level := level;
    }
  }

  /** The `VERBOSE` dispatch at the start of `init_logger`: 3, 2, 1, 0 set INFO, DEBUG, WARNING, ERROR. */
  method ApplyVerbosity(root: RootLogger, verbose: int)
    modifies root
    ensures root.level == match verbose
                          case 3 => INFO
                          case 2 => DEBUG
                          case 1 => WARNING
                          case 0 => ERROR
                          case _ => old(root.level)
  {
    if verbose == 3 {
      root.SetLevel(INFO);
    } else if verbose == 2 {
      root.SetLevel(DEBUG);
    } else if verbose == 1 {
      root.SetLevel(WARNING);
    } else if verbose == 0 {
      root.SetLevel(ERROR);
    }
  }

  /**
   * `init_logger`: the verbosity dispatch, then `getLogger()` (the same root
   * logger) is set to INFO, so every `VERBOSE` ends at INFO; the file
   * formatter is a JsonFormatter over FileFmtDict.
   */
  method InitLogger(root: RootLogger, verbose: int) returns (logger: RootLogger, jsonFormatter: JsonFormatter)
    modifies root
    ensures logger == root && root.level == INFO
    ensures fresh(jsonFormatter) && jsonFormatter.fmtDict == FileFmtDict
  {
    ApplyVerbosity(root, verbose);
    logger := root;
    logger.SetLevel(INFO);
    jsonFormatter := new JsonFormatter(Some(FileFmtDict), "%Y-%m-%dT%H:%M:%S", "%s.%03dZ");
  }

  /** The file formatter renders a time stamp, so `format` computes `asctime`. */
  lemma FileFormatUsesTime()
    ensures UsesTime(FileFmtDict)
  {
    assert FileFmtDict["timestamp"] == "asctime";
  }
}
