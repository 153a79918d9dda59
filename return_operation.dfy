/** `TsReturnOperation`: validates a return/complaint notification request,
    resolves the client, creator and expert, describes the status change,
    assembles the template data and dispatches the client notifications.
    Every outside service is a field of `Env`. */
module ReturnOperation {
  import opened Php

  const TYPE_NEW: int := 1
  const TYPE_CHANGE: int := 2

  /** The request array passed to `doOperation`. */
  type Request = map<string, Value>

  /** The fields of a contractor or employee the operation reads: the full name,
      `email`, `mobile` and `Seller->id` (null when there is no seller). */
  datatype Party = Party(fullName: string, email: string, mobile: string, sellerId: Value)

  /** Which directory `getContractor` is asked to look in. */
  datatype EntityKind = ContractorKind | EmployeeKind

  /** The collaborators of the operation.  `castString` is PHP's `(int)` cast
      of a string, whose parsing rules are not modelled. */
  datatype Env = Env(
    contractorById: int -> Option<Party>,
    employeeById: int -> Option<Party>,
    statusName: int -> string,
    emailSend: (string, string, Value) -> bool,
    smsSend: (string, string) -> bool,
    castString: string -> int)

  /** The exceptions the operation throws, with the field or key they name. */
  datatype Error =
    | RequiredFieldEmpty(field: string)
    | ContractorNotFoundOrInvalid
    | TemplateFieldEmpty(key: string)

  datatype Outcome = Pass | Fail(error: Error)

  datatype Result<+T> = Success(value: T) | Failure(error: Error) {
    predicate IsFailure() { Failure? }
    function PropagateFailure<U>(): Result<U> requires Failure? { Failure(error) }
    function Extract(): T requires Success? { value }
  }

  /** The PHP class of the exception thrown for `e`. */
  function ExceptionClass(e: Error): (r: string)
    ensures r == "RuntimeException" <==> e == ContractorNotFoundOrInvalid
    ensures r != "RuntimeException" ==> r == "InvalidArgumentException"
  {
    match e
    case ContractorNotFoundOrInvalid => "RuntimeException"
    case _ => "InvalidArgumentException"
  }

  /** The message of the exception thrown for `e`. */
  function Message(e: Error): (r: string)
    ensures e.RequiredFieldEmpty? ==> 40 <= |r| && r[7..|r| - 33] == e.field
    ensures e.TemplateFieldEmpty? ==> 30 <= |r| && r[19..|r| - 11] == e.key
  {
    match e
    case RequiredFieldEmpty(field) => "Field '" + field + "' is required and cannot be empty"
    case ContractorNotFoundOrInvalid => "Contractor not found or invalid"
    case TemplateFieldEmpty(key) => "Template Data for '" + key + "' is empty!"
  }

  /** The thrown message names the field: different fields give different messages. */
  lemma RequiredMessageNamesField(f: string, g: string)
    requires Message(RequiredFieldEmpty(f)) == Message(RequiredFieldEmpty(g))
    ensures f == g
  {
    var prefix, suffix := "Field '", "' is required and cannot be empty";
    var m := Message(RequiredFieldEmpty(f));
    assert m == prefix + f + suffix && m == prefix + g + suffix;
    assert m[|prefix|..|m| - |suffix|] == f;
    assert m[|prefix|..|m| - |suffix|] == g;
  }

  // ---------------------------------------------------------------------
  // Fail-fast scan over a list of keys (used by both foreach loops)

  /** The first key of `keys` whose request value is `empty`, if any. */
  function FirstEmpty(data: Request, keys: seq<string>): (r: Option<string>)
    ensures r.Some? ==> r.value in keys && Empty(Get(data, r.value))
    ensures r.None? <==> forall i :: 0 <= i < |keys| ==> !Empty(Get(data, keys[i]))
  {
    if keys == [] then None
    else if Empty(Get(data, keys[0])) then Some(keys[0])
    else FirstEmpty(data, keys[1..])
  }

  /** `FirstEmpty` returns `k` exactly when `k` is the earliest key whose value is empty. */
  lemma {:induction false} FirstEmptyIsEarliest(data: Request, keys: seq<string>, k: string)
    ensures FirstEmpty(data, keys) == Some(k) <==>
      exists i :: 0 <= i < |keys| && keys[i] == k && Empty(Get(data, keys[i])) &&
        forall j :: 0 <= j < i ==> !Empty(Get(data, keys[j]))
  {
    if keys != [] {
      FirstEmptyIsEarliest(data, keys[1..], k);
      if FirstEmpty(data, keys) == Some(k) {
        if !Empty(Get(data, keys[0])) {
          var i :| 0 <= i < |keys[1..]| && keys[1..][i] == k && Empty(Get(data, keys[1..][i])) &&
            forall j :: 0 <= j < i ==> !Empty(Get(data, keys[1..][j]));
          assert keys[i + 1] == k && Empty(Get(data, keys[i + 1]));
          forall j | 0 <= j < i + 1 ensures !Empty(Get(data, keys[j])) {
            if j > 0 { assert keys[j] == keys[1..][j - 1]; }
          }
        }
      } else {
        if exists i :: 0 <= i < |keys| && keys[i] == k && Empty(Get(data, keys[i])) &&
            forall j :: 0 <= j < i ==> !Empty(Get(data, keys[j])) {
          var i :| 0 <= i < |keys| && keys[i] == k && Empty(Get(data, keys[i])) &&
            forall j :: 0 <= j < i ==> !Empty(Get(data, keys[j]));
          assert i != 0;
          assert keys[1..][i - 1] == k;
          forall j | 0 <= j < i - 1 ensures !Empty(Get(data, keys[1..][j])) {
            assert keys[1..][j] == keys[j + 1];
          }
          assert false;
        }
      }
    }
  }

  // ---------------------------------------------------------------------
  // validateRequestData

  const REQUIRED_FIELDS: seq<string> := ["resellerId", "notificationType", "clientId", "creatorId", "expertId"]

  /** What `validateRequestData` does: throw for the first required field that is empty. */
  function Validation(data: Request): (r: Outcome)
    ensures r.Pass? <==> forall i :: 0 <= i < |REQUIRED_FIELDS| ==> !Empty(Get(data, REQUIRED_FIELDS[i]))
    ensures r.Fail? ==> r.error.RequiredFieldEmpty? && r.error.field in REQUIRED_FIELDS
  {
    match FirstEmpty(data, REQUIRED_FIELDS)
    case None => Pass
    case Some(field) => Fail(RequiredFieldEmpty(field))
  }

  /** The `foreach` over the required fields, stopping at the first empty one. */
  method ValidateRequestData(data: Request) returns (r: Outcome)
    ensures r == Validation(data)
  {
    for n := 0 to |REQUIRED_FIELDS|
      invariant FirstEmpty(data, REQUIRED_FIELDS) == FirstEmpty(data, REQUIRED_FIELDS[n..])
    {
      var field := REQUIRED_FIELDS[n];
      assert REQUIRED_FIELDS[n..][1..] == REQUIRED_FIELDS[n + 1..];
      if Empty(Get(data, field)) {
        return Fail(RequiredFieldEmpty(field));
      }
    }
    return Pass;
  }

  // ---------------------------------------------------------------------
  // getContractor

  /** `$class::getById($id)`, with the class given as a kind. */
  function FindById(env: Env, kind: EntityKind, id: int): (r: Option<Party>) {
    match kind
    case ContractorKind => env.contractorById(id)
    case EmployeeKind => env.employeeById(id)
  }

  /** PHP truthiness of the optional `$resellerId` argument: given and non-zero. */
  predicate ResellerGiven(resellerId: Option<int>) {
    resellerId.Some? && resellerId.value != 0
  }

  /** `getContractor`: the looked-up entity, unless it is missing or, when a
      reseller is given, its `Seller->id` is not strictly that reseller. */
  function GetContractor(env: Env, kind: EntityKind, id: int, resellerId: Option<int>): (r: Result<Party>)
    ensures FindById(env, kind, id).None? ==> r == Failure(ContractorNotFoundOrInvalid)
    ensures ResellerGiven(resellerId) && FindById(env, kind, id).Some? &&
            FindById(env, kind, id).value.sellerId != Int(resellerId.value) ==>
              r == Failure(ContractorNotFoundOrInvalid)
    ensures r.Success? ==> FindById(env, kind, id) == Some(r.value)
    ensures r.Success? && ResellerGiven(resellerId) ==> r.value.sellerId == Int(resellerId.value)
    ensures !ResellerGiven(resellerId) ==> (r.Success? <==> FindById(env, kind, id).Some?)
    ensures r.Failure? ==> r.error == ContractorNotFoundOrInvalid
    ensures r.Success? <==>
      FindById(env, kind, id).Some? &&
      (ResellerGiven(resellerId) ==> FindById(env, kind, id).value.sellerId == Int(resellerId.value))
  {
    var found := FindById(env, kind, id);
    if found.None? || (ResellerGiven(resellerId) && found.value.sellerId != Int(resellerId.value)) then
      Failure(ContractorNotFoundOrInvalid)
    else
      Success(found.value)
  }

  // ---------------------------------------------------------------------
  // defineDifferences

  const NEW_POSITION_PHRASE: string := "New position added"

  function ChangePhrase(fromName: string, toName: string): (r: string) {
    "Position status has changed from " + fromName + " to " + toName
  }

  /** `defineDifferences`: compares the RAW `notificationType` with `===`; the
      status codes are `(int)$data['differences']['from']` and `['to']`. */
  function DefineDifferences(data: Request, env: Env): (r: string)
    ensures Get(data, "notificationType") == Int(TYPE_NEW) ==> r == NEW_POSITION_PHRASE
    ensures Get(data, "notificationType") == Int(TYPE_CHANGE) && !Empty(Get(data, "differences")) ==>
      var differences := Get(data, "differences");
      r == ChangePhrase(env.statusName(ToInt(Index(differences, "from"), env.castString)),
                        env.statusName(ToInt(Index(differences, "to"), env.castString)))
    ensures r == "" <==>
      Get(data, "notificationType") != Int(TYPE_NEW) &&
      !(Get(data, "notificationType") == Int(TYPE_CHANGE) && !Empty(Get(data, "differences")))
  {
    var notificationType := Get(data, "notificationType");
    var differences := Get(data, "differences");
    if notificationType == Int(TYPE_NEW) then
      NEW_POSITION_PHRASE
    else if notificationType == Int(TYPE_CHANGE) && !Empty(differences) then
      ChangePhrase(env.statusName(ToInt(Index(differences, "from"), env.castString)),
                   env.statusName(ToInt(Index(differences, "to"), env.castString)))
    else
      ""
  }

  // ---------------------------------------------------------------------
  // prepareTemplateData

  const NAMED_KEYS: seq<string> := ["CLIENT_NAME", "CREATOR_NAME", "EXPERT_NAME", "DIFFERENCES"]

  const COMMON_DATA_KEYS: seq<string> :=
    ["complaintId", "complaintNumber", "creatorId", "expertId", "clientId", "consumptionId",
     "consumptionNumber", "agreementNumber", "date"]

  /** `strtoupper` of each of `COMMON_DATA_KEYS`, in the same order. */
  const COMMON_TEMPLATE_KEYS: seq<string> :=
    ["COMPLAINTID", "COMPLAINTNUMBER", "CREATORID", "EXPERTID", "CLIENTID", "CONSUMPTIONID",
     "CONSUMPTIONNUMBER", "AGREEMENTNUMBER", "DATE"]

  /** The thirteen keys of an assembled template, in order. */
  const TEMPLATE_KEYS: seq<string> := NAMED_KEYS + COMMON_TEMPLATE_KEYS

  lemma TemplateKeysDistinct()
    ensures |TEMPLATE_KEYS| == 13
    ensures forall i, j :: 0 <= i < j < |TEMPLATE_KEYS| ==> TEMPLATE_KEYS[i] != TEMPLATE_KEYS[j]
  {
  }

  /** The array literal `prepareTemplateData` starts from. */
  function NamedEntries(client: Party, creator: Party, expert: Party, differences: string): (t: Entries) {
    [("CLIENT_NAME", Str(client.fullName)), ("CREATOR_NAME", Str(creator.fullName)),
     ("EXPERT_NAME", Str(expert.fullName)), ("DIFFERENCES", Str(differences))]
  }

  /** The first `n` passthrough entries: each upper-cased key with the request value under its key. */
  function CommonEntries(data: Request, n: nat): (t: Entries)
    requires n <= |COMMON_DATA_KEYS|
    ensures |t| == n
    ensures forall j :: 0 <= j < n ==> t[j] == (COMMON_TEMPLATE_KEYS[j], Get(data, COMMON_DATA_KEYS[j]))
  {
    if n == 0 then []
    else CommonEntries(data, n - 1) + [(COMMON_TEMPLATE_KEYS[n - 1], Get(data, COMMON_DATA_KEYS[n - 1]))]
  }

  /** What `prepareTemplateData` returns or throws. */
  function TemplateData(data: Request, client: Party, creator: Party, expert: Party, env: Env): (r: Result<Entries>) {
    match FirstEmpty(data, COMMON_DATA_KEYS)
    case Some(key) => Failure(TemplateFieldEmpty(key))
    case None =>
      Success(NamedEntries(client, creator, expert, DefineDifferences(data, env)) +
              CommonEntries(data, |COMMON_DATA_KEYS|))
  }

  /** The keys assembled after `n` passthrough steps are the first `4 + n` template keys. */
  lemma AssembledKeys(client: Party, creator: Party, expert: Party, differences: string, data: Request, n: nat)
    requires n <= |COMMON_DATA_KEYS|
    ensures KeysOf(NamedEntries(client, creator, expert, differences) + CommonEntries(data, n)) ==
            TEMPLATE_KEYS[..4 + n]
  {
    var t := NamedEntries(client, creator, expert, differences) + CommonEntries(data, n);
    forall i | 0 <= i < |t| ensures KeysOf(t)[i] == TEMPLATE_KEYS[..4 + n][i] {
      KeysOfAt(t, i);
    }
  }

  /** The key the next passthrough step assigns is not among those already assembled. */
  lemma NextTemplateKeyIsNew(n: nat)
    requires n < |COMMON_TEMPLATE_KEYS|
    ensures COMMON_TEMPLATE_KEYS[n] !in TEMPLATE_KEYS[..4 + n]
  {
    TemplateKeysDistinct();
    assert TEMPLATE_KEYS[4 + n] == COMMON_TEMPLATE_KEYS[n];
  }

  /** One step of the passthrough loop: assigning the next upper-cased key appends it. */
  lemma AssembleStep(client: Party, creator: Party, expert: Party, differences: string, data: Request, n: nat)
    requires n < |COMMON_DATA_KEYS|
    ensures Put(NamedEntries(client, creator, expert, differences) + CommonEntries(data, n),
                COMMON_TEMPLATE_KEYS[n], Get(data, COMMON_DATA_KEYS[n])) ==
            NamedEntries(client, creator, expert, differences) + CommonEntries(data, n + 1)
  {
    var t := NamedEntries(client, creator, expert, differences) + CommonEntries(data, n);
    AssembledKeys(client, creator, expert, differences, data, n);
    NextTemplateKeyIsNew(n);
    PutAppends(t, COMMON_TEMPLATE_KEYS[n], Get(data, COMMON_DATA_KEYS[n]));
    assert t + [(COMMON_TEMPLATE_KEYS[n], Get(data, COMMON_DATA_KEYS[n]))] ==
           NamedEntries(client, creator, expert, differences) + CommonEntries(data, n + 1);
  }

  /** `prepareTemplateData`: starts from the four named entries and assigns each
      passthrough value under its upper-cased key, throwing at the first empty one. */
  method PrepareTemplateData(data: Request, client: Party, creator: Party, expert: Party, env: Env)
    returns (r: Result<Entries>)
    ensures r == TemplateData(data, client, creator, expert, env)
  {
    var differences := DefineDifferences(data, env);
    var templateData := NamedEntries(client, creator, expert, differences);
    for n := 0 to |COMMON_DATA_KEYS|
      invariant FirstEmpty(data, COMMON_DATA_KEYS) == FirstEmpty(data, COMMON_DATA_KEYS[n..])
      invariant templateData == NamedEntries(client, creator, expert, differences) + CommonEntries(data, n)
    {
      var key := COMMON_DATA_KEYS[n];
      assert COMMON_DATA_KEYS[n..][1..] == COMMON_DATA_KEYS[n + 1..];
      if Empty(Get(data, key)) {
        return Failure(TemplateFieldEmpty(key));
      }
      AssembleStep(client, creator, expert, differences, data, n);
      templateData := Put(templateData, COMMON_TEMPLATE_KEYS[n], Get(data, key));
    }
    return Success(templateData);
  }

  // ---------------------------------------------------------------------
  // sendNotifications

  const EMAIL_SUBJECT: string := "Status Change Notification"
  const SMS_MESSAGE: string := "Your status has changed."

  datatype SmsOutcome = SmsOutcome(isSent: bool, message: string)

  datatype DispatchResult = DispatchResult(
    notificationEmployeeByEmail: bool,
    notificationClientByEmail: bool,
    notificationClientBySms: SmsOutcome)

  /** The `$result` array as sendNotifications initialises it. */
  const INITIAL_RESULT: DispatchResult := DispatchResult(false, false, SmsOutcome(false, ""))

  /** One outbound call to a channel, with its arguments. */
  datatype Send =
    | EmailSend(address: string, subject: string, body: Value)
    | SmsSend(number: string, message: string)

  /** The returned `$result` together with the channel calls made, in order. */
  datatype Dispatched = Dispatched(result: DispatchResult, sends: seq<Send>)

  /** What `sendNotifications` returns and which channels it calls. */
  function Dispatch(templateData: Entries, client: Party, notificationType: int, env: Env): (d: Dispatched) {
    if notificationType == TYPE_CHANGE then
      var body := Lookup(templateData, "DIFFERENCES");
      Dispatched(
        DispatchResult(false, env.emailSend(client.email, EMAIL_SUBJECT, body),
                       SmsOutcome(env.smsSend(client.mobile, SMS_MESSAGE), SMS_MESSAGE)),
        [EmailSend(client.email, EMAIL_SUBJECT, body), SmsSend(client.mobile, SMS_MESSAGE)])
    else
      Dispatched(INITIAL_RESULT, [])
  }

  /** `sendNotifications`: `$result` starts at the initial record and is updated
      inside the CHANGE branch after each channel call. */
  method SendNotifications(templateData: Entries, client: Party, notificationType: int, env: Env)
    returns (d: Dispatched)
    ensures d == Dispatch(templateData, client, notificationType, env)
  {
    var result := INITIAL_RESULT;
    var sends: seq<Send> := [];
    if notificationType == TYPE_CHANGE {
      var body := Lookup(templateData, "DIFFERENCES");
      var emailSent := env.emailSend(client.email, EMAIL_SUBJECT, body);
      sends := sends + [EmailSend(client.email, EMAIL_SUBJECT, body)];
      result := result.(notificationClientByEmail := emailSent);
      var smsSent := env.smsSend(client.mobile, SMS_MESSAGE);
      sends := sends + [SmsSend(client.mobile, SMS_MESSAGE)];
      result := result.(notificationClientBySms := SmsOutcome(smsSent, SMS_MESSAGE));
    }
    d := Dispatched(result, sends);
  }

  // ---------------------------------------------------------------------
  // doOperation

  /** `(int)$requestData[$key]`. */
  function IntField(data: Request, key: string, env: Env): (n: int) {
    ToInt(Get(data, key), env.castString)
  }

  /** What `doOperation` returns or throws: the stages in order, the first error ending the run. */
  function Run(data: Request, env: Env): (r: Result<Dispatched>) {
    match Validation(data)
    case Fail(e) => Failure(e)
    case Pass =>
      var resellerId := IntField(data, "resellerId", env);
      var notificationType := IntField(data, "notificationType", env);
      var client :- GetContractor(env, ContractorKind, IntField(data, "clientId", env), Some(resellerId));
      var creator :- GetContractor(env, EmployeeKind, IntField(data, "creatorId", env), None);
      var expert :- GetContractor(env, EmployeeKind, IntField(data, "expertId", env), None);
      var templateData :- TemplateData(data, client, creator, expert, env);
      Success(Dispatch(templateData, client, notificationType, env))
  }

  /** `doOperation`. */
  method DoOperation(data: Request, env: Env) returns (r: Result<Dispatched>)
    ensures r == Run(data, env)
  {
    var valid := ValidateRequestData(data);
    if valid.Fail? {
      return Failure(valid.error);
    }
    var resellerId := IntField(data, "resellerId", env);
    var notificationType := IntField(data, "notificationType", env);
    var client :- GetContractor(env, ContractorKind, IntField(data, "clientId", env), Some(resellerId));
    var creator :- GetContractor(env, EmployeeKind, IntField(data, "creatorId", env), None);
    var expert :- GetContractor(env, EmployeeKind, IntField(data, "expertId", env), None);
    var templateData :- PrepareTemplateData(data, client, creator, expert, env);
    var d := SendNotifications(templateData, client, notificationType, env);
    return Success(d);
  }
}
