/** Properties of the notification pipeline modelled in `ReturnOperation`. */
module ReturnOperationProperties {
  import opened Php
  import opened ReturnOperation

  // ---------------------------------------------------------------------
  // Validation

  /** Validation fails naming `f` exactly when `f` is the first required field, in
      the order resellerId, notificationType, clientId, creatorId, expertId, whose
      value is empty. */
  lemma ValidationNamesFirstEmptyField(data: Request, f: string)
    ensures Validation(data) == Fail(RequiredFieldEmpty(f)) <==>
      exists i :: 0 <= i < |REQUIRED_FIELDS| && REQUIRED_FIELDS[i] == f && Empty(Get(data, REQUIRED_FIELDS[i])) &&
        forall j :: 0 <= j < i ==> !Empty(Get(data, REQUIRED_FIELDS[j]))
  {
    FirstEmptyIsEarliest(data, REQUIRED_FIELDS, f);
  }

  // ---------------------------------------------------------------------
  // Difference description

  /** For a raw type `=== TYPE_NEW` the description is the fixed phrase, whatever
      the `differences` entry holds. */
  lemma NewDescriptionIgnoresDifferences(data: Request, differences: Value, env: Env)
    requires Get(data, "notificationType") == Int(TYPE_NEW)
    ensures DefineDifferences(data["differences" := differences], env) == NEW_POSITION_PHRASE
  {
    assert Get(data["differences" := differences], "notificationType") == Int(TYPE_NEW);
  }

  /** A CHANGE from status 1 to status 2, with status names "New" and "Closed". */
  lemma ChangeDescriptionExample(env: Env)
    requires env.statusName(1) == "New" && env.statusName(2) == "Closed"
    ensures DefineDifferences(map["notificationType" := Int(TYPE_CHANGE),
                                  "differences" := Arr(map["from" := Int(1), "to" := Int(2)])], env)
            == "Position status has changed from New to Closed"
  {
    var differences := Arr(map["from" := Int(1), "to" := Int(2)]);
    var data := map["notificationType" := Int(TYPE_CHANGE), "differences" := differences];
    assert Get(data, "notificationType") == Int(TYPE_CHANGE);
    assert Get(data, "differences") == differences;
    assert "from" in differences.items;
    assert Index(differences, "from") == Int(1) && Index(differences, "to") == Int(2);
  }

  // ---------------------------------------------------------------------
  // Template assembly

  /** A fully assembled template has the thirteen keys in order, each once. */
  lemma AssembledKeysDistinct(client: Party, creator: Party, expert: Party, differences: string, data: Request)
    ensures var t := NamedEntries(client, creator, expert, differences) + CommonEntries(data, |COMMON_DATA_KEYS|);
      KeysOf(t) == TEMPLATE_KEYS && DistinctKeys(t)
  {
    var t := NamedEntries(client, creator, expert, differences) + CommonEntries(data, |COMMON_DATA_KEYS|);
    AssembledKeys(client, creator, expert, differences, data, |COMMON_DATA_KEYS|);
    TemplateKeysDistinct();
    forall a, b | 0 <= a < b < |t| ensures t[a].0 != t[b].0 {
      KeysOfAt(t, a);
      KeysOfAt(t, b);
    }
  }

  /** Reading a fully assembled template: the names and the description under
      the four fixed keys, the request values under the upper-cased keys. */
  lemma AssembledLookups(client: Party, creator: Party, expert: Party, differences: string, data: Request)
    ensures var t := NamedEntries(client, creator, expert, differences) + CommonEntries(data, |COMMON_DATA_KEYS|);
      && Lookup(t, "CLIENT_NAME") == Str(client.fullName)
      && Lookup(t, "CREATOR_NAME") == Str(creator.fullName)
      && Lookup(t, "EXPERT_NAME") == Str(expert.fullName)
      && Lookup(t, "DIFFERENCES") == Str(differences)
      && forall i :: 0 <= i < |COMMON_DATA_KEYS| ==> Lookup(t, COMMON_TEMPLATE_KEYS[i]) == Get(data, COMMON_DATA_KEYS[i])
  {
    var t := NamedEntries(client, creator, expert, differences) + CommonEntries(data, |COMMON_DATA_KEYS|);
    AssembledKeysDistinct(client, creator, expert, differences, data);
    LookupAt(t, 0);
    LookupAt(t, 1);
    LookupAt(t, 2);
    LookupAt(t, 3);
    forall i | 0 <= i < |COMMON_DATA_KEYS|
      ensures Lookup(t, COMMON_TEMPLATE_KEYS[i]) == Get(data, COMMON_DATA_KEYS[i])
    {
      LookupAt(t, 4 + i);
    }
  }

  /** The assembled template, when assembly succeeds: exactly the thirteen keys
      in order, the first four carrying the names and the description, each of the
      nine others carrying the request value under its lower-camel key. Assembly
      succeeds exactly when none of the nine request values is empty. */
  lemma TemplateDataContents(data: Request, client: Party, creator: Party, expert: Party, env: Env)
    ensures TemplateData(data, client, creator, expert, env).Success? <==>
      forall i :: 0 <= i < |COMMON_DATA_KEYS| ==> !Empty(Get(data, COMMON_DATA_KEYS[i]))
    ensures TemplateData(data, client, creator, expert, env).Success? ==>
      var t := TemplateData(data, client, creator, expert, env).value;
      && KeysOf(t) == TEMPLATE_KEYS
      && DistinctKeys(t)
      && Lookup(t, "CLIENT_NAME") == Str(client.fullName)
      && Lookup(t, "CREATOR_NAME") == Str(creator.fullName)
      && Lookup(t, "EXPERT_NAME") == Str(expert.fullName)
      && Lookup(t, "DIFFERENCES") == Str(DefineDifferences(data, env))
      && forall i :: 0 <= i < |COMMON_DATA_KEYS| ==> Lookup(t, COMMON_TEMPLATE_KEYS[i]) == Get(data, COMMON_DATA_KEYS[i])
  {
    AssembledKeysDistinct(client, creator, expert, DefineDifferences(data, env), data);
    AssembledLookups(client, creator, expert, DefineDifferences(data, env), data);
  }

  /** Assembly fails naming `k` exactly when `k` is the first of the nine
      passthrough keys, in source order, whose request value is empty; no
      partial template is produced. */
  lemma TemplateDataNamesFirstEmptyKey(data: Request, client: Party, creator: Party, expert: Party, env: Env, k: string)
    ensures TemplateData(data, client, creator, expert, env) == Failure(TemplateFieldEmpty(k)) <==>
      exists i :: 0 <= i < |COMMON_DATA_KEYS| && COMMON_DATA_KEYS[i] == k && Empty(Get(data, COMMON_DATA_KEYS[i])) &&
        forall j :: 0 <= j < i ==> !Empty(Get(data, COMMON_DATA_KEYS[j]))
    ensures TemplateData(data, client, creator, expert, env).Failure? ==>
      TemplateData(data, client, creator, expert, env).error.TemplateFieldEmpty?
  {
    FirstEmptyIsEarliest(data, COMMON_DATA_KEYS, k);
  }

  /** After validation has passed, assembly can only fail on one of the six
      passthrough keys validation does not check. */
  lemma ValidatedIdsNeverMissing(data: Request, client: Party, creator: Party, expert: Party, env: Env)
    requires Validation(data).Pass?
    requires TemplateData(data, client, creator, expert, env).Failure?
    ensures TemplateData(data, client, creator, expert, env).error.key in
      ["complaintId", "complaintNumber", "consumptionId", "consumptionNumber", "agreementNumber", "date"]
  {
    var k := TemplateData(data, client, creator, expert, env).error.key;
    assert REQUIRED_FIELDS[2] == "clientId" && REQUIRED_FIELDS[3] == "creatorId" && REQUIRED_FIELDS[4] == "expertId";
    assert k in COMMON_DATA_KEYS && Empty(Get(data, k));
  }

  // ---------------------------------------------------------------------
  // Dispatch

  function Emails(sends: seq<Send>): (r: seq<Send>)
    ensures forall s :: s in r <==> s in sends && s.EmailSend?
  {
    if sends == [] then []
    else (if sends[0].EmailSend? then [sends[0]] else []) + Emails(sends[1..])
  }

  function Smss(sends: seq<Send>): (r: seq<Send>)
    ensures forall s :: s in r <==> s in sends && s.SmsSend?
  {
    if sends == [] then []
    else (if sends[0].SmsSend? then [sends[0]] else []) + Smss(sends[1..])
  }

  /** The dispatch record reports exactly what the channel calls returned: the
      client email flag is true iff an email call was made and accepted, the SMS
      outcome is sent iff an SMS call was made and accepted and carries the SMS
      text iff one was made; the employee email flag is never set. CHANGE makes
      exactly one email and one SMS call, both to the client, the email body
      being the template's DIFFERENCES; every other type makes none. */
  lemma DispatchReportsChannelCalls(templateData: Entries, client: Party, notificationType: int, env: Env)
    ensures var d := Dispatch(templateData, client, notificationType, env);
      && !d.result.notificationEmployeeByEmail
      && (d.result.notificationClientByEmail <==>
            exists s :: s in d.sends && s.EmailSend? && env.emailSend(s.address, s.subject, s.body))
      && (d.result.notificationClientBySms.isSent <==>
            exists s :: s in d.sends && s.SmsSend? && env.smsSend(s.number, s.message))
      && d.result.notificationClientBySms.message == (if Smss(d.sends) != [] then SMS_MESSAGE else "")
      && |Emails(d.sends)| == |Smss(d.sends)| == (if notificationType == TYPE_CHANGE then 1 else 0)
      && |d.sends| == |Emails(d.sends)| + |Smss(d.sends)|
      && (forall s :: s in d.sends && s.EmailSend? ==>
            s == EmailSend(client.email, EMAIL_SUBJECT, Lookup(templateData, "DIFFERENCES")))
      && (forall s :: s in d.sends && s.SmsSend? ==> s == SmsSend(client.mobile, SMS_MESSAGE))
  {
    var d := Dispatch(templateData, client, notificationType, env);
    if notificationType == TYPE_CHANGE {
      var e, m := d.sends[0], d.sends[1];
      assert d.sends == [e, m];
      assert Emails(d.sends) == [e] + Emails([m]);
      assert Emails([m]) == [] + Emails([]);
      assert Smss(d.sends) == [] + Smss([m]);
      assert Smss([m]) == [m] + Smss([]);
    }
  }

  /** The email outcome does not depend on the SMS service and the SMS outcome
      does not depend on the email service: one can be sent while the other is not. */
  lemma DispatchChannelsIndependent(templateData: Entries, client: Party, notificationType: int, env: Env,
                                    email: (string, string, Value) -> bool, sms: (string, string) -> bool)
    ensures Dispatch(templateData, client, notificationType, env.(smsSend := sms)).result.notificationClientByEmail
         == Dispatch(templateData, client, notificationType, env).result.notificationClientByEmail
    ensures Dispatch(templateData, client, notificationType, env.(emailSend := email)).result.notificationClientBySms
         == Dispatch(templateData, client, notificationType, env).result.notificationClientBySms
  {
  }

  // ---------------------------------------------------------------------
  // The whole operation

  /** The client, creator and expert `doOperation` looks up. */
  function ClientLookup(data: Request, env: Env): (r: Option<Party>) {
    FindById(env, ContractorKind, IntField(data, "clientId", env))
  }

  function CreatorLookup(data: Request, env: Env): (r: Option<Party>) {
    FindById(env, EmployeeKind, IntField(data, "creatorId", env))
  }

  function ExpertLookup(data: Request, env: Env): (r: Option<Party>) {
    FindById(env, EmployeeKind, IntField(data, "expertId", env))
  }

  /** Validation runs before any lookup: when it fails the run fails with its
      error, whatever the directories, status table and channels are. */
  lemma RunValidatesFirst(data: Request, env: Env, other: Env)
    requires Validation(data).Fail?
    ensures Run(data, env) == Run(data, other) == Failure(Validation(data).error)
  {
  }

  /** The run succeeds exactly when every stage does: validation passes; the
      client exists and, for a non-zero reseller id, its `Seller->id` is that id;
      creator and expert exist (no tenant check); none of the nine passthrough
      values is empty. */
  lemma RunSucceedsIff(data: Request, env: Env)
    ensures Run(data, env).Success? <==>
      && Validation(data).Pass?
      && ClientLookup(data, env).Some?
      && (IntField(data, "resellerId", env) != 0 ==>
            ClientLookup(data, env).value.sellerId == Int(IntField(data, "resellerId", env)))
      && CreatorLookup(data, env).Some?
      && ExpertLookup(data, env).Some?
      && forall i :: 0 <= i < |COMMON_DATA_KEYS| ==> !Empty(Get(data, COMMON_DATA_KEYS[i]))
  {
    if Validation(data).Pass? && ClientLookup(data, env).Some? && CreatorLookup(data, env).Some?
       && ExpertLookup(data, env).Some? {
      var t := TemplateData(data, ClientLookup(data, env).value, CreatorLookup(data, env).value,
                            ExpertLookup(data, env).value, env);
      assert t.Success? <==> FirstEmpty(data, COMMON_DATA_KEYS).None?;
    }
  }

  /** A validated request whose client belongs to another reseller fails with the
      contractor error, before the template data is looked at. */
  lemma RunRejectsForeignClient(data: Request, env: Env)
    requires Validation(data).Pass?
    requires ClientLookup(data, env).Some?
    requires IntField(data, "resellerId", env) != 0
    requires ClientLookup(data, env).value.sellerId != Int(IntField(data, "resellerId", env))
    ensures Run(data, env) == Failure(ContractorNotFoundOrInvalid)
  {
  }

  /** A lookup failure ends the run with the contractor error even when the
      passthrough data is also incomplete: lookups come before assembly. */
  lemma RunLookupsBeforeTemplate(data: Request, env: Env)
    requires Validation(data).Pass?
    requires ClientLookup(data, env).None? || CreatorLookup(data, env).None? || ExpertLookup(data, env).None?
    ensures Run(data, env) == Failure(ContractorNotFoundOrInvalid)
  {
  }

  /** Only a failed lookup or reseller check throws a `RuntimeException`; every
      other failure of the run is an `InvalidArgumentException` naming a field. */
  lemma RunRuntimeExceptionOnlyFromLookups(data: Request, env: Env)
    requires Run(data, env).Failure?
    ensures ExceptionClass(Run(data, env).error) == "RuntimeException" <==>
      && Validation(data).Pass?
      && (|| ClientLookup(data, env).None?
          || (IntField(data, "resellerId", env) != 0 &&
              ClientLookup(data, env).value.sellerId != Int(IntField(data, "resellerId", env)))
          || CreatorLookup(data, env).None?
          || ExpertLookup(data, env).None?)
  {
    if Validation(data).Pass? && ClientLookup(data, env).Some? && CreatorLookup(data, env).Some?
       && ExpertLookup(data, env).Some? {
      var t := TemplateData(data, ClientLookup(data, env).value, CreatorLookup(data, env).value,
                            ExpertLookup(data, env).value, env);
      assert t.Failure? ==> t.error.TemplateFieldEmpty?;
    }
  }

  /** A successful run whose `(int)` type is CHANGE emails the client the change
      description and texts the fixed message, and reports both replies. */
  lemma RunChangeNotifiesClient(data: Request, env: Env)
    requires Run(data, env).Success?
    requires IntField(data, "notificationType", env) == TYPE_CHANGE
    ensures ClientLookup(data, env).Some?
    ensures var client := ClientLookup(data, env).value;
      var body := Str(DefineDifferences(data, env));
      && Run(data, env).value.sends ==
           [EmailSend(client.email, EMAIL_SUBJECT, body), SmsSend(client.mobile, SMS_MESSAGE)]
      && Run(data, env).value.result ==
           DispatchResult(false, env.emailSend(client.email, EMAIL_SUBJECT, body),
                          SmsOutcome(env.smsSend(client.mobile, SMS_MESSAGE), SMS_MESSAGE))
  {
    RunSucceedsIff(data, env);
    TemplateDataContents(data, ClientLookup(data, env).value, CreatorLookup(data, env).value,
                         ExpertLookup(data, env).value, env);
  }

  /** A successful run of any other `(int)` type, NEW included, calls no channel
      and returns the initial record. */
  lemma RunOtherTypesSendNothing(data: Request, env: Env)
    requires Run(data, env).Success?
    requires IntField(data, "notificationType", env) != TYPE_CHANGE
    ensures Run(data, env).value == Dispatched(INITIAL_RESULT, [])
  {
  }

  /** The description compares the raw type while dispatch uses the cast one:
      a type given as a string that casts to CHANGE sends the email with an
      empty body. */
  lemma StringChangeTypeSendsEmptyBody(data: Request, env: Env, s: string)
    requires Get(data, "notificationType") == Str(s)
    requires env.castString(s) == TYPE_CHANGE
    requires Run(data, env).Success?
    ensures exists e :: e in Run(data, env).value.sends && e.EmailSend? && e.body == Str("")
  {
    RunChangeNotifiesClient(data, env);
    var client := ClientLookup(data, env).value;
    assert Run(data, env).value.sends[0] == EmailSend(client.email, EMAIL_SUBJECT, Str(""));
  }
}
