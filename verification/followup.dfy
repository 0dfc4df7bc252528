/** The follow-up e-mail route of src/app/api/ai/followup/route.ts: request validation,
    tone selection and the prompt handed to the language model. The model call itself is a
    parameter; the route has no authentication and no usage counter. */
module Followup {
  import opened Types

  /** The three tones `TONE_PROMPTS` knows. */
  datatype Tone = Formal | Neutral | Short

  /** One entry of `TONE_PROMPTS`. */
  datatype ToneConfig = ToneConfig(style: string, maxWords: nat)

  function ToneKey(t: Tone): string {
    match t
    case Formal => "formal"
    case Neutral => "neutral"
    case Short => "short"
  }

  /** The entry of `TONE_PROMPTS` for a tone. */
  function Config(t: Tone): ToneConfig {
    match t
    case Formal => ToneConfig("très formel et soutenu, utilisant le vouvoiement systématiquement", 180)
    case Neutral => ToneConfig("professionnel mais accessible, adapté à un étudiant", 150)
    case Short => ToneConfig("très court et direct, allant droit à l'essentiel", 80)
  }

  /** `TONE_PROMPTS[tone] || TONE_PROMPTS.neutral`, with `tone` defaulting to "neutral"
      when the body leaves it out. */
  function ToneConfigFor(tone: Option<string>): (c: ToneConfig)
    ensures (exists t: Tone :: tone == Some(ToneKey(t)) && c == Config(t)) || c == Config(Neutral)
  {
    var key := tone.GetOr("neutral");
    if key == "formal" then Config(Formal)
    else if key == "short" then Config(Short)
    else Config(Neutral)
  }

  /** The JSON body: every field may be missing. */
  datatype FollowupBody = FollowupBody(company: Option<string>, role: Option<string>,
                                       appliedAt: Option<string>, tone: Option<string>)

  /** What the prompt template is filled with. */
  datatype Prompt = Prompt(company: string, role: string, appliedDate: string, config: ToneConfig)

  /** What `groq.chat.completions.create` did: it threw, or it answered with the first
      choice's message content (`None` when there is no choice or no content). */
  datatype Completion = CompletionThrew | Completed(content: Option<string>)

  datatype FollowupResponse =
    | CompanyAndRoleRequired400
    | KeyNotConfigured500
    | GenerationFailed500
    | EmailReply(email: string)

  /** The response, and the prompt sent to the model if it was called. */
  datatype FollowupResult = FollowupResult(response: FollowupResponse, sent: Option<Prompt>)

  /** `POST /api/ai/followup`. `body` is `None` when `request.json()` throws; `localeLong`
      stands for `toLocaleDateString("fr-FR", { day, month: "long", year })`. */
  function Handle(body: Option<FollowupBody>, apiKey: Option<string>, localeLong: string -> string,
                  complete: Prompt -> Completion): (r: FollowupResult)
    ensures body.None? ==> r == FollowupResult(GenerationFailed500, None)
    ensures body.Some? && !(Truthy(body.value.company) && Truthy(body.value.role)) ==>
      r == FollowupResult(CompanyAndRoleRequired400, None)
    ensures body.Some? && Truthy(body.value.company) && Truthy(body.value.role) && !Truthy(apiKey) ==>
      r == FollowupResult(KeyNotConfigured500, None)
    ensures r.sent.Some? <==> body.Some? && Truthy(body.value.company) && Truthy(body.value.role) && Truthy(apiKey)
    ensures r.sent.Some? ==>
      && r.sent.value.company == body.value.company.value
      && r.sent.value.role == body.value.role.value
      && r.sent.value.appliedDate == (if Truthy(body.value.appliedAt) then localeLong(body.value.appliedAt.value) else "récemment")
      && r.sent.value.config == ToneConfigFor(body.value.tone)
      && (complete(r.sent.value).CompletionThrew? <==> r.response == GenerationFailed500)
      && (complete(r.sent.value).Completed? ==> r.response == EmailReply(OrElse(complete(r.sent.value).content, "")))
  {
    match body
    case None => FollowupResult(GenerationFailed500, None)
    case Some(b) =>
      if !Truthy(b.company) || !Truthy(b.role) then FollowupResult(CompanyAndRoleRequired400, None)
      else if !Truthy(apiKey) then FollowupResult(KeyNotConfigured500, None)
      else
        var appliedDate := if Truthy(b.appliedAt) then localeLong(b.appliedAt.value) else "récemment";
        var p := Prompt(b.company.value, b.role.value, appliedDate, ToneConfigFor(b.tone));
        match complete(p)
        case CompletionThrew => FollowupResult(GenerationFailed500, Some(p))
        case Completed(content) => FollowupResult(EmailReply(OrElse(content, "")), Some(p))
  }

  /** Each tone's own key selects its entry, and any other string falls back to the
      neutral entry. */
  lemma ToneSelection(s: string)
    ensures forall t: Tone :: ToneConfigFor(Some(ToneKey(t))) == Config(t)
    ensures s !in {"formal", "neutral", "short"} ==> ToneConfigFor(Some(s)) == Config(Neutral)
    ensures ToneConfigFor(None) == Config(Neutral)
  {
    forall t: Tone ensures ToneConfigFor(Some(ToneKey(t))) == Config(t) {
      match t
      case Formal =>
      case Neutral =>
      case Short =>
    }
  }

  /** What a well-formed request puts in the prompt for its tone: "formal" asks for a
      very formal e-mail of at most 180 words, "short" for a direct one of at most 80,
      and "neutral", an absent tone or any other text for an accessible one of at most
      150. */
  lemma PromptForTone(b: FollowupBody, key: string, localeLong: string -> string, complete: Prompt -> Completion)
    requires Truthy(b.company) && Truthy(b.role) && key != ""
    ensures var p := Handle(Some(b), Some(key), localeLong, complete).sent;
      && p.Some?
      && (b.tone == Some("formal") ==>
            p.value.config == ToneConfig("très formel et soutenu, utilisant le vouvoiement systématiquement", 180))
      && (b.tone == Some("short") ==>
            p.value.config == ToneConfig("très court et direct, allant droit à l'essentiel", 80))
      && (b.tone !in {Some("formal"), Some("short")} ==>
            p.value.config == ToneConfig("professionnel mais accessible, adapté à un étudiant", 150))
  {
  }

  /** Validation comes before the key check: a request without company gets 400 even when
      the key is missing. */
  lemma ValidationBeforeKeyCheck(b: FollowupBody, localeLong: string -> string, complete: Prompt -> Completion)
    requires !Truthy(b.company)
    ensures Handle(Some(b), None, localeLong, complete).response == CompanyAndRoleRequired400
  {
  }

  /** Any well-formed request reaches the model once a key is configured: nothing about the
      caller (signed in or not, free or pro, how many e-mails already) is consulted. */
  lemma NoCallerGate(company: string, role: string, appliedAt: Option<string>, tone: Option<string>,
                     key: string, localeLong: string -> string, complete: Prompt -> Completion)
    requires company != "" && role != "" && key != ""
    ensures Handle(Some(FollowupBody(Some(company), Some(role), appliedAt, tone)), Some(key), localeLong, complete).sent.Some?
  {
  }

  /** A reply without content becomes an empty e-mail, never a missing one. */
  lemma EmptyCompletionIsEmptyEmail(b: FollowupBody, key: string, localeLong: string -> string,
                                    complete: Prompt -> Completion)
    requires Truthy(b.company) && Truthy(b.role) && key != ""
    requires forall p :: complete(p) == Completed(None)
    ensures Handle(Some(b), Some(key), localeLong, complete).response == EmailReply("")
  {
  }
}
