/** The pure collaborators of the poll loop in homework.py: the verdict table,
    the start-up token check, the response shape check and the status
    formatter, plus a decoder that recovers the homework name and status from
    a rendered status message. */
module Homework {
  import opened JsonValue

  datatype Option<T> = None | Some(value: T)

  /** An exception raised by the core, as far as the loop can observe it:
      its kind and the text `str(error)` gives. */
  datatype Failure =
    | TypeError(msg: string)
    | KeyError(msg: string)
    | AttributeError(msg: string)
    | Raised(text: string)  // any other exception, given by its `str()`
  {
    /** `str(error)`. For a KeyError Python shows `repr` of its argument, which
        for the quote-free messages raised here is the text in single quotes. */
    function Text(): string
    {
      match this
      case TypeError(m) => m
      case KeyError(m) => "'" + m + "'"
      case AttributeError(m) => m
      case Raised(t) => t
    }
  }

  datatype Result<T> = Ok(value: T) | Err(error: Failure)

  // ---------------------------------------------------------------- verdicts

  /** The verdict table: status key to verdict text, in insertion order. */
  const Verdicts: seq<(string, string)> := [
    ("approved", "Работа проверена: ревьюеру всё понравилось. Ура!"),
    ("reviewing", "Работа взята на проверку ревьюером."),
    ("rejected", "Работа проверена: у ревьюера есть замечания.")
  ]

  /** Dictionary lookup in an insertion-ordered table of pairs. */
  function Lookup(table: seq<(string, string)>, key: string): (r: Option<string>)
    ensures r.Some? <==> exists i :: 0 <= i < |table| && table[i].0 == key
    ensures r.Some? ==> exists i :: 0 <= i < |table| && table[i] == (key, r.value)
  {
    if table == [] then None
    else if table[0].0 == key then Some(table[0].1)
    else
      var r := Lookup(table[1..], key);
      assert forall i :: 1 <= i < |table| ==> table[i] == table[1..][i - 1];
      r
  }

  /** The keys of the verdict table, in insertion order. */
  function VerdictKeys(): (keys: seq<string>)
    ensures |keys| == |Verdicts|
    ensures forall i :: 0 <= i < |keys| ==> keys[i] == Verdicts[i].0
  {
    seq(|Verdicts|, i requires 0 <= i < |Verdicts| => Verdicts[i].0)
  }

  /** The first two keys of the verdict table: the statuses that reset the
      remembered error. */
  function ResetStatuses(): (keys: seq<string>)
    ensures keys == ["approved", "reviewing"]
  {
    VerdictKeys()[..2]
  }

  /** The three statuses the table knows, with their verdicts. */
  lemma KnownStatuses(status: string)
    ensures Lookup(Verdicts, status).Some? <==> status in {"approved", "reviewing", "rejected"}
    ensures status == "approved" ==> Lookup(Verdicts, status) == Some(Verdicts[0].1)
    ensures status == "reviewing" ==> Lookup(Verdicts, status) == Some(Verdicts[1].1)
    ensures status == "rejected" ==> Lookup(Verdicts, status) == Some(Verdicts[2].1)
  {
  }

  // ------------------------------------------------------------- check_tokens

  const TokensMessage := "Что-то с переменными окружения."

  /** Whether an environment value is truthy in Python: set and non-empty. */
  predicate Present(token: Option<string>)
  {
    token.Some? && token.value != ""
  }

  /** check_tokens: all three secrets must be set and non-empty. */
  function CheckTokens(practicumToken: Option<string>, telegramToken: Option<string>,
                       chatId: Option<string>): (r: Result<()>)
    ensures r.Err? <==> (practicumToken in {None, Some("")} || telegramToken in {None, Some("")}
                         || chatId in {None, Some("")})
    ensures r.Err? ==> r.error == Raised(TokensMessage)
  {
    if Present(practicumToken) && Present(telegramToken) && Present(chatId) then Ok(())
    else Err(Raised(TokensMessage))
  }

  // ----------------------------------------------------------- check_response

  const NotDictMessage := "Входящие данные переданы не в виде словаря."
  const NotListMessage := "Входящие данные переданы не в виде списка."

  /** check_response: the body must be a dict whose `homeworks` entry is a
      list; an empty list is accepted. */
  function CheckResponse(response: Json): (r: Result<()>)
    ensures r.Ok? <==> response.JDict? && Get(response.entries, "homeworks").JList?
    ensures !response.JDict? ==> r == Err(TypeError(NotDictMessage))
    ensures response.JDict? && !Get(response.entries, "homeworks").JList? ==>
              r == Err(TypeError(NotListMessage))
  {
    if !response.JDict? then Err(TypeError(NotDictMessage))
    else if !Get(response.entries, "homeworks").JList? then Err(TypeError(NotListMessage))
    else Ok(())
  }

  // ------------------------------------------------------------- parse_status

  const NameMessage := "Ошибка извлечения информации о домашней работе."
  const StatusMessage := "Домашняя работа получена без статуса."
  const MessagePrefix := "Изменился статус проверки работы \""

  /** The record's `homework_name` entry, `None` when absent. */
  function NameOf(homework: Json): Json
    requires homework.JDict?
  {
    Get(homework.entries, "homework_name")
  }

  /** The record's `status` entry, `None` when absent. */
  function StatusOf(homework: Json): Json
    requires homework.JDict?
  {
    Get(homework.entries, "status")
  }

  /** A record parse_status accepts: a dict with a string name and a status
      that is a key of the verdict table. */
  predicate WellFormed(homework: Json)
  {
    && homework.JDict?
    && NameOf(homework).JStr?
    && StatusOf(homework).JStr?
    && Lookup(Verdicts, StatusOf(homework).s).Some?
  }

  /** parse_status: the name is checked first, then the status; on success
      the notification text for the record. */
  function ParseStatus(homework: Json): (r: Result<string>)
    ensures r.Ok? <==> WellFormed(homework)
    ensures r.Ok? ==> r.value == "Изменился статус проверки работы \"" + NameOf(homework).s
                                 + "\". " + Lookup(Verdicts, StatusOf(homework).s).value
    ensures !homework.JDict? ==>
              r == Err(AttributeError("'" + TypeName(homework) + "' object has no attribute 'get'"))
    ensures homework.JDict? && !NameOf(homework).JStr? ==> r == Err(TypeError(NameMessage))
    ensures homework.JDict? && NameOf(homework).JStr? && !WellFormed(homework) ==>
              r == if Hashable(StatusOf(homework)) then Err(KeyError(StatusMessage))
                   else Err(TypeError("unhashable type: '" + TypeName(StatusOf(homework)) + "'"))
  {
    if !homework.JDict? then
      Err(AttributeError("'" + TypeName(homework) + "' object has no attribute 'get'"))
    else
      var name := NameOf(homework);
      var status := StatusOf(homework);
      if !name.JStr? then Err(TypeError(NameMessage))
      else if !Hashable(status) then Err(TypeError("unhashable type: '" + TypeName(status) + "'"))
      else if !status.JStr? || Lookup(Verdicts, status.s).None? then Err(KeyError(StatusMessage))
      else Ok(MessagePrefix + name.s + "\". " + Lookup(Verdicts, status.s).value)
  }

  // ----------------------------------------------- reading a message back

  /** Recovers `(name, status)` from a status message by matching the fixed
      prefix and the first verdict of the table that ends the message. */
  function DecodeMessage(message: string): Option<(string, string)>
  {
    if |MessagePrefix| <= |message| && message[..|MessagePrefix|] == MessagePrefix
    then DecodeTail(message[|MessagePrefix|..], Verdicts)
    else None
  }

  function DecodeTail(rest: string, table: seq<(string, string)>): Option<(string, string)>
  {
    if table == [] then None
    else
      var suffix := "\". " + table[0].1;
      if |suffix| <= |rest| && rest[|rest| - |suffix|..] == suffix
      then Some((rest[..|rest| - |suffix|], table[0].0))
      else DecodeTail(rest, table[1..])
  }

  /** The verdict texts end differently, so no entry of the table can be
      mistaken for a later one when the message is read back. */
  lemma {:induction false} DecodeTailFinds(name: string, k: nat)
    requires k < |Verdicts|
    ensures DecodeTail(name + "\". " + Verdicts[k].1, Verdicts) == Some((name, Verdicts[k].0))
  {
    var rest := name + "\". " + Verdicts[k].1;
    var n := |rest|;
    var s0 := "\". " + Verdicts[0].1;
    var s1 := "\". " + Verdicts[1].1;
    var s2 := "\". " + Verdicts[2].1;
    assert |s0| <= n && rest[n - |s0|..] == s0 ==> rest[n - 1] == s0[|s0| - 1];
    assert |s1| <= n && rest[n - |s1|..] == s1 ==> rest[n - 2] == s1[|s1| - 2];
    if k == 0 {
      assert rest[n - |s0|..] == s0;
      assert rest[..n - |s0|] == name;
    } else if k == 1 {
      assert rest[n - 1] == '.';
      assert rest[n - |s1|..] == s1;
      assert rest[..n - |s1|] == name;
    } else {
      assert rest[n - 1] == '.' && rest[n - 2] == 'я';
      assert rest[n - |s2|..] == s2;
      assert rest[..n - |s2|] == name;
      assert DecodeTail(rest, Verdicts[2..]) == Some((name, Verdicts[2].0));
    }
  }

  /** Round trip: a message rendered by parse_status names exactly the
      homework and the status it was rendered from. */
  lemma {:induction false} DecodeParseStatus(homework: Json)
    requires ParseStatus(homework).Ok?
    ensures DecodeMessage(ParseStatus(homework).value) ==
            Some((NameOf(homework).s, StatusOf(homework).s))
  {
    var name := NameOf(homework).s;
    var status := StatusOf(homework).s;
    KnownStatuses(status);
    var k := if status == "approved" then 0 else if status == "reviewing" then 1 else 2;
    assert Lookup(Verdicts, status).value == Verdicts[k].1;
    var m := ParseStatus(homework).value;
    assert m == MessagePrefix + (name + "\". " + Verdicts[k].1);
    assert m[|MessagePrefix|..] == name + "\". " + Verdicts[k].1;
    DecodeTailFinds(name, k);
  }

  /** Two records with the same rendered message have the same name and the
      same status. */
  lemma MessageIdentifiesRecord(h1: Json, h2: Json)
    requires ParseStatus(h1).Ok? && ParseStatus(h2).Ok?
    requires ParseStatus(h1).value == ParseStatus(h2).value
    ensures NameOf(h1) == NameOf(h2) && StatusOf(h1) == StatusOf(h2)
  {
    DecodeParseStatus(h1);
    DecodeParseStatus(h2);
  }
}
