/**
 * The pure part of the bot: the credential check, the validator of an API answer and
 * the formatter that turns one homework record into the chat sentence.
 */
module Homework {
  import opened Validation
  import opened Json

  /** The exceptions the poll loop catches, by kind. */
  datatype Exc =
    | KeyError(arg: string)
    | TypeError(arg: string)
      /** What `get_api_answer` raises (endpoint unreachable, non-200 status, undecodable body); `text` is its str(). */
    | ApiFailure(text: string)

  /**
   * str() of an exception, as `f'{error}'` renders it. str() of a KeyError is the repr of its
   * argument. Every KeyError argument raised here is printable and has no single quote and no
   * backslash (its double quotes stay as they are), so Python simply wraps it in single quotes.
   */
  function ExcText(e: Exc): (r: string)
    ensures e.KeyError? ==> |r| == |e.arg| + 2 && r[0] == '\'' && r[|r| - 1] == '\'' && r[1..|r| - 1] == e.arg
    ensures e.TypeError? ==> r == e.arg
    ensures e.ApiFailure? ==> r == e.text
  {
    match e
    case KeyError(a) => "'" + a + "'"
    case TypeError(a) => a
    case ApiFailure(t) => t
  }

  const NOT_AN_OBJECT := "Структура данных не соответствует ожиданиям"
  const NO_HOMEWORKS_KEY := "Ошибка ключа \"homeworks\""
  const NO_CURRENT_DATE_KEY := "Ошибка ключа \"current_date\""
  const HOMEWORKS_NOT_A_LIST := "Под ключом `homeworks` данные не в виде списка"
  const NO_NAME_KEY := "В ответе API нет ключа \"homework_name\""
  const NO_STATUS_KEY := "В ответе API нет ключа \"status\""
  const UNKNOWN_STATUS := "В ответе API отсутствует статус"

  const APPROVED := "Работа проверена: ревьюеру всё понравилось. Ура!"
  const REVIEWING := "Работа взята на проверку ревьюером."
  const REJECTED := "Работа проверена: у ревьюера есть замечания."

  /** The fixed table from review status to the sentence shown to the student. */
  const VERDICTS: map<string, string> := map["approved" := APPROVED, "reviewing" := REVIEWING, "rejected" := REJECTED]

  const TEMPLATE_HEAD := "Изменился статус проверки работы \""
  const TEMPLATE_MIDDLE := "\". "

  /** The sentence `Изменился статус проверки работы "{name}". {verdict}`. */
  function Template(name: string, verdict: string): string {
    TEMPLATE_HEAD + name + TEMPLATE_MIDDLE + verdict
  }

  // ---------------------------------------------------------------- check_tokens

  /** The three secrets as `os.getenv` returns them: absent (None) or a string. */
  datatype Credentials = Credentials(practicumToken: Option<string>, telegramToken: Option<string>, chatId: Option<string>)

  /** Python truthiness of an optional string: neither None nor "". */
  predicate Truthy(v: Option<string>) {
    v.Some? && |v.value| > 0
  }

  /** Python's `all()` over a list of truth values. */
  function All(bs: seq<bool>): (r: bool)
    ensures r <==> forall i :: 0 <= i < |bs| ==> bs[i]
  {
    if bs == [] then true
    else
      assert forall i :: 1 <= i < |bs| ==> bs[i] == bs[1..][i - 1];
      bs[0] && All(bs[1..])
  }

  function CheckTokens(c: Credentials): (ok: bool)
    ensures ok <==> c.practicumToken !in {None, Some("")} && c.telegramToken !in {None, Some("")} && c.chatId !in {None, Some("")}
  {
    var flags := [Truthy(c.practicumToken), Truthy(c.telegramToken), Truthy(c.chatId)];
    assert flags[0] == Truthy(c.practicumToken) && flags[1] == Truthy(c.telegramToken) && flags[2] == Truthy(c.chatId);
    All(flags)
  }

  // ---------------------------------------------------------------- check_response

  /** `d[key]` when `d` is a dict holding `key`. */
  function Field(v: Value, key: string): Option<Value> {
    if v.Obj? && key in v.fields then Some(v.fields[key]) else None
  }

  /** The shape the API documents: an object holding `homeworks`, a list, and `current_date`. */
  predicate WellFormedResponse(response: Value) {
    && response.Obj?
    && "homeworks" in response.fields
    && "current_date" in response.fields
    && response.fields["homeworks"].Arr?
  }

  function CheckResponse(response: Value): (r: Result<seq<Value>, Exc>)
    ensures r.Ok? <==> WellFormedResponse(response)
    ensures r.Ok? ==> r.value == response.fields["homeworks"].items
    ensures r.Err? ==> r.error in {TypeError(NOT_AN_OBJECT), KeyError(NO_HOMEWORKS_KEY),
                                   KeyError(NO_CURRENT_DATE_KEY), TypeError(HOMEWORKS_NOT_A_LIST)}
  {
    if !response.Obj? then Err(TypeError(NOT_AN_OBJECT))
    else if "homeworks" !in response.fields then Err(KeyError(NO_HOMEWORKS_KEY))
    else if "current_date" !in response.fields then Err(KeyError(NO_CURRENT_DATE_KEY))
    else if !response.fields["homeworks"].Arr? then Err(TypeError(HOMEWORKS_NOT_A_LIST))
    else Ok(response.fields["homeworks"].items)
  }

  /** The documented checks on an answer, in the order they are made. */
  function ResponseChecks(response: Value): seq<Check<Exc>> {
    [ Check(response.Obj?, TypeError(NOT_AN_OBJECT)),
      Check(Field(response, "homeworks").Some?, KeyError(NO_HOMEWORKS_KEY)),
      Check(Field(response, "current_date").Some?, KeyError(NO_CURRENT_DATE_KEY)),
      Check(Field(response, "homeworks").Some? && Field(response, "homeworks").value.Arr?, TypeError(HOMEWORKS_NOT_A_LIST)) ]
  }

  /** The validator raises exactly the error of the first documented check that fails. */
  lemma CheckResponseFailsFast(response: Value)
    ensures CheckResponse(response).Ok? <==> FirstViolation(ResponseChecks(response)).None?
    ensures FirstViolation(ResponseChecks(response)).Some? ==>
      CheckResponse(response) == Err(FirstViolation(ResponseChecks(response)).value)
  {
    var cs := ResponseChecks(response);
    var r := FirstViolation(cs);
    if r.Some? {
      var i :| 0 <= i < |cs| && !cs[i].holds && r.value == cs[i].error && forall j :: 0 <= j < i ==> cs[j].holds;
      if i > 0 { assert cs[0].holds; }
      if i > 1 { assert cs[1].holds; }
      if i > 2 { assert cs[2].holds; }
    } else {
      assert cs[0].holds && cs[1].holds && cs[2].holds && cs[3].holds;
    }
  }

  // ---------------------------------------------------------------- parse_status

  /**
   * `HOMEWORK_VERDICTS[status]`, guarded by `status not in HOMEWORK_VERDICTS`: a status that is
   * not a known string is a KeyError, except that a list or dict cannot be hashed at all.
   */
  function LookupVerdict(status: Value): (r: Result<string, Exc>)
    ensures r.Ok? <==> KnownStatus(status)
    ensures r.Ok? ==> r.value == VERDICTS[status.s]
    ensures r.Err? ==> r.error == if status.Arr? || status.Obj? then TypeError("unhashable type: '" + TypeName(status) + "'")
                                  else KeyError(UNKNOWN_STATUS)
  {
    match status
    case Str(s) => if s in VERDICTS then Ok(VERDICTS[s]) else Err(KeyError(UNKNOWN_STATUS))
    case Arr(_) => Err(TypeError("unhashable type: '" + TypeName(status) + "'"))
    case Obj(_) => Err(TypeError("unhashable type: '" + TypeName(status) + "'"))
    case _ => Err(KeyError(UNKNOWN_STATUS))
  }

  /** A status the verdict table knows. */
  predicate KnownStatus(status: Value) {
    status.Str? && status.s in VERDICTS
  }

  /**
   * parse_status on any decoded value (the first element of `homeworks` is not checked before).
   * A dict is looked up as documented; for a list or a string `in` tests membership or a
   * substring and the subscript that follows fails; other values cannot be searched by `in`.
   */
  function ParseStatus(homework: Value): (r: Result<string, Exc>)
    ensures r.Ok? <==>
      homework.Obj? && "homework_name" in homework.fields && "status" in homework.fields &&
      KnownStatus(homework.fields["status"])
    ensures r.Ok? ==>
      r.value == Template(PyStr(homework.fields["homework_name"]), VERDICTS[homework.fields["status"].s])
  {
    match homework
    case Obj(f) =>
      if "homework_name" !in f then Err(KeyError(NO_NAME_KEY))
      else
        var name := f["homework_name"];
        if "status" !in f then Err(KeyError(NO_STATUS_KEY))
        else
          (match LookupVerdict(f["status"])
           case Err(e) => Err(e)
           case Ok(verdict) => Ok(Template(PyStr(name), verdict)))
    case Arr(items) =>
      if Str("homework_name") !in items then Err(KeyError(NO_NAME_KEY))
      else Err(TypeError("list indices must be integers or slices, not str"))
    case Str(s) =>
      if !Contains(s, "homework_name") then Err(KeyError(NO_NAME_KEY))
      else Err(TypeError("string indices must be integers, not 'str'"))
    case _ => Err(TypeError("argument of type '" + TypeName(homework) + "' is not iterable"))
  }

  /** The documented checks on a homework record, in the order they are made. */
  function RecordChecks(record: map<string, Value>): seq<Check<Exc>> {
    var status := Field(Obj(record), "status");
    [ Check("homework_name" in record, KeyError(NO_NAME_KEY)),
      Check(status.Some?, KeyError(NO_STATUS_KEY)),
      Check(status.Some? && KnownStatus(status.value),
            if status.Some? && LookupVerdict(status.value).Err? then LookupVerdict(status.value).error
            else KeyError(UNKNOWN_STATUS)) ]
  }

  /** On a dict, the formatter raises exactly the error of the first documented check that fails. */
  lemma ParseStatusFailsFast(record: map<string, Value>)
    ensures ParseStatus(Obj(record)).Ok? <==> FirstViolation(RecordChecks(record)).None?
    ensures FirstViolation(RecordChecks(record)).Some? ==>
      ParseStatus(Obj(record)) == Err(FirstViolation(RecordChecks(record)).value)
  {
    var cs := RecordChecks(record);
    var r := FirstViolation(cs);
    if r.Some? {
      var i :| 0 <= i < |cs| && !cs[i].holds && r.value == cs[i].error && forall j :: 0 <= j < i ==> cs[j].holds;
      if i > 0 { assert cs[0].holds; }
      if i > 1 { assert cs[1].holds; }
    } else {
      assert cs[0].holds && cs[1].holds && cs[2].holds;
    }
  }

  /** An unknown status never yields a sentence: it is a KeyError, or a TypeError when unhashable. */
  lemma UnknownStatusIsAnError(record: map<string, Value>)
    requires "homework_name" in record && "status" in record && !KnownStatus(record["status"])
    ensures ParseStatus(Obj(record)) ==
      if record["status"].Arr? || record["status"].Obj? then Err(TypeError("unhashable type: '" + TypeName(record["status"]) + "'"))
      else Err(KeyError(UNKNOWN_STATUS))
  {
  }

  /** The last characters of the three verdicts tell them apart. */
  lemma VerdictsDifferAtTheEnd(s1: string, s2: string, m1: string, m2: string)
    requires s1 in VERDICTS && s2 in VERDICTS && s1 != s2
    ensures m1 + VERDICTS[s1] != m2 + VERDICTS[s2]
  {
    var v1, v2 := VERDICTS[s1], VERDICTS[s2];
    assert APPROVED[|APPROVED| - 1] == '!';
    assert REVIEWING[|REVIEWING| - 1] == '.' && REVIEWING[|REVIEWING| - 2] == 'м';
    assert REJECTED[|REJECTED| - 1] == '.' && REJECTED[|REJECTED| - 2] == 'я';
    var a, b := m1 + v1, m2 + v2;
    assert a[|a| - 1] == v1[|v1| - 1] && a[|a| - 2] == v1[|v1| - 2];
    assert b[|b| - 1] == v2[|v2| - 1] && b[|b| - 2] == v2[|v2| - 2];
  }

  /**
   * For records with a string name, the sentence determines both the name and the status:
   * a record whose name or status changed always yields a different sentence.
   */
  lemma SentenceDeterminesRecord(h1: Value, h2: Value)
    requires ParseStatus(h1).Ok? && ParseStatus(h2).Ok?
    requires h1.fields["homework_name"].Str? && h2.fields["homework_name"].Str?
    requires ParseStatus(h1) == ParseStatus(h2)
    ensures h1.fields["homework_name"] == h2.fields["homework_name"]
    ensures h1.fields["status"] == h2.fields["status"]
  {
    var n1, n2 := h1.fields["homework_name"].s, h2.fields["homework_name"].s;
    var s1, s2 := h1.fields["status"].s, h2.fields["status"].s;
    var v1, v2 := VERDICTS[s1], VERDICTS[s2];
    var m := Template(n1, v1);
    assert m == Template(n2, v2);
    assert s1 == s2 by {
      if s1 != s2 {
        VerdictsDifferAtTheEnd(s1, s2, TEMPLATE_HEAD + n1 + TEMPLATE_MIDDLE, TEMPLATE_HEAD + n2 + TEMPLATE_MIDDLE);
        assert false;
      }
    }
    assert |n1| == |n2|;
    NameInTemplate(n1, v1);
    NameInTemplate(n2, v2);
  }

  /** The name sits in the sentence right after the fixed head. */
  lemma NameInTemplate(name: string, verdict: string)
    ensures Template(name, verdict)[|TEMPLATE_HEAD|..|TEMPLATE_HEAD| + |name|] == name
  {
    var m := Template(name, verdict);
    assert m == TEMPLATE_HEAD + (name + (TEMPLATE_MIDDLE + verdict));
  }
}
