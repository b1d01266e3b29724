/**
  The `generate-image` edge function: a chain of guards that each end the request
  early, then one call to the image generator, then three bookkeeping writes whose
  failures are only logged.

  Every outside result (building the Supabase client, the session lookup, the credits
  read, the generator, each write) is a parameter, gathered in `Services`. `Guard` is
  the decision the chain makes, `Handle` the whole request as a value, and `Serve` the
  same request run step by step against a `Backend`.
*/
module GenerateImage {
  import opened Wrappers
  import opened Ledger
  import opened Base64

  /** The price of one image, charged by the handler and checked before it. */
  const Cost := 10

  /** The `type` of the generation row and the `feature_used` of the transaction row. */
  const Feature := "image_generation"

  /** What `req.json()` yields: a JSON object with an optional string `prompt`, or a parse error. */
  datatype Body = Unparsable(message: string) | Json(prompt: Option<string>)

  datatype Request = Request(httpMethod: string, authorization: Option<string>, body: Body)

  /** The result of `auth.getUser()` for the caller's token. */
  datatype AuthOutcome = AuthError | NoUser | SignedIn(user: UserId)

  /** The generator's image as bytes, or the exception raised while producing or reading it. */
  datatype ImageOutcome = Image(bytes: seq<Byte>) | Threw(message: string)

  /**
    The outside results of one request: whether building the Supabase client threw
    (and with what message), the session lookup, the credits read, the generator,
    and whether each of the three writes succeeded.
  */
  datatype Services = Services(
    clientError: Option<string>,
    auth: AuthOutcome,
    creditsReadFails: bool,
    image: ImageOutcome,
    generationInsertOk: bool,
    deductOk: bool,
    transactionInsertOk: bool)

  datatype Response =
    | Preflight
    | MissingAuthorization
    | NotAuthenticated
    | CreditsUnavailable
    | NotEnoughCredits(creditsNeeded: int, currentCredits: Option<int>)
    | NoPrompt
    | Generated(image: string, remainingCredits: int)
    | ServerError(message: string)
  {
    /** The HTTP status; a `Response` built without one is 200. */
    function Status(): int {
      match this
      case Preflight => 200
      case MissingAuthorization => 401
      case NotAuthenticated => 401
      case CreditsUnavailable => 400
      case NotEnoughCredits(_, _) => 402
      case NoPrompt => 400
      case Generated(_, _) => 200
      case ServerError(_) => 500
    }

    /** The `error` field of the JSON body, when there is one. */
    function Error(): Option<string> {
      match this
      case Preflight => None
      case MissingAuthorization => Some("No authorization header")
      case NotAuthenticated => Some("Not authenticated")
      case CreditsUnavailable => Some("Could not fetch user credits")
      case NotEnoughCredits(_, _) => Some("Not enough credits")
      case NoPrompt => Some("No prompt provided")
      case Generated(_, _) => None
      case ServerError(m) => Some(m)
    }
  }

  /** Either an early response, or leave to generate for a signed-in user with the balance read and the prompt. */
  datatype Decision = Reject(response: Response) | Admit(user: UserId, balance: int, prompt: string)

  /** The request passes every guard of the chain. */
  ghost predicate Admissible(balances: map<UserId, Option<int>>, req: Request, x: Services) {
    req.httpMethod != "OPTIONS" && Truthy(req.authorization) && x.clientError.None? &&
    x.auth.SignedIn? && !x.creditsReadFails && x.auth.user in balances &&
    balances[x.auth.user].Some? && balances[x.auth.user].value >= Cost &&
    req.body.Json? && Truthy(req.body.prompt)
  }

  /**
    The guard chain, in its order: preflight, authorization header, building the
    client, session, credits row, balance, then the body and its prompt. A `null`
    balance compares below 10. A throw inside the `try` becomes a 500.
  */
  function Guard(balances: map<UserId, Option<int>>, req: Request, x: Services): (d: Decision)
    ensures d.Admit? <==> Admissible(balances, req, x)
    ensures d.Admit? ==>
      d.user == x.auth.user && balances[d.user] == Some(d.balance) && d.balance >= Cost &&
      req.body == Json(Some(d.prompt)) && d.prompt != ""
  {
    if req.httpMethod == "OPTIONS" then Reject(Preflight)
    else if !Truthy(req.authorization) then Reject(MissingAuthorization)
    else if x.clientError.Some? then Reject(ServerError(x.clientError.value))
    else if !x.auth.SignedIn? then Reject(NotAuthenticated)
    else if x.creditsReadFails || x.auth.user !in balances then Reject(CreditsUnavailable)
    else if balances[x.auth.user].None? || balances[x.auth.user].value < Cost then
      Reject(NotEnoughCredits(Cost, balances[x.auth.user]))
    else match req.body
      case Unparsable(m) => Reject(ServerError(m))
      case Json(p) =>
        if !Truthy(p) then Reject(NoPrompt) else Admit(x.auth.user, balances[x.auth.user].value, p.value)
  }

  datatype Outcome = Outcome(response: Response, after: State)

  /** One request as a value: the response, and the backend state once it is answered. */
  function Handle(s: State, req: Request, x: Services): (o: Outcome)
    ensures s.effects <= o.after.effects && s.transactions <= o.after.transactions && s.generations <= o.after.generations
    ensures |o.after.transactions| <= |s.transactions| + 1 && |o.after.generations| <= |s.generations| + 1
    ensures o.after.balances.Keys == s.balances.Keys
    ensures o.after.effects == s.effects <==> !Admissible(s.balances, req, x)
  {
    match Guard(s.balances, req, x)
    case Reject(response) => Outcome(response, s)
    case Admit(user, balance, prompt) =>
      var s1 := s.WithImageRequest(prompt);
      match x.image
      case Threw(m) => Outcome(ServerError(m), s1)
      case Image(bytes) =>
        var url := DataUrl(bytes);
        var s2 := s1.WithGeneration(GenerationRow(user, prompt, Feature, url), x.generationInsertOk);
        var s3 := s2.Deducted(user, Cost, x.deductOk);
        var s4 := s3.WithTransaction(TransactionRow(user, Cost, Feature), x.transactionInsertOk);
        Outcome(Generated(url, balance - Cost), s4)
  }

  /** The handler run against the live backend: guards, generation, then the three writes in order. */
  method Serve(backend: Backend, req: Request, x: Services) returns (response: Response)
    modifies backend
    ensures Outcome(response, backend.Snapshot()) == Handle(old(backend.Snapshot()), req, x)
  {
    var decision := Guard(backend.balances, req, x);
    if decision.Reject? {
      return decision.response;
    }
    var user, balance, prompt := decision.user, decision.balance, decision.prompt;
    backend.RequestImage(prompt);
    if x.image.Threw? {
      return ServerError(x.image.message);
    }
    var imageUrl := DataUrl(x.image.bytes);
    backend.InsertGenerationRow(GenerationRow(user, prompt, Feature, imageUrl), x.generationInsertOk);
    backend.DeductCreditsRpc(user, Cost, x.deductOk);
    backend.InsertTransactionRow(TransactionRow(user, Cost, Feature), x.transactionInsertOk);
    response := Generated(imageUrl, balance - Cost);
  }

  // ---------------------------------------------------------------------------
  // The early responses
  // ---------------------------------------------------------------------------

  /** A preflight request is answered at once, whatever the session, tables or generator would say. */
  lemma PreflightAnsweredFirst(s: State, req: Request, x: Services)
    requires req.httpMethod == "OPTIONS"
    ensures Handle(s, req, x) == Outcome(Preflight, s)
    ensures Preflight.Status() == 200 && Preflight.Error().None?
  {
  }

  /** A missing or empty Authorization header gives 401 before the session, the credits or the generator are consulted. */
  lemma MissingHeaderRejected(s: State, req: Request, x: Services)
    requires req.httpMethod != "OPTIONS" && !Truthy(req.authorization)
    ensures Handle(s, req, x) == Outcome(MissingAuthorization, s)
    ensures MissingAuthorization.Status() == 401
  {
  }

  /** A session lookup that errs or finds nobody gives 401 "Not authenticated", whatever the tables hold. */
  lemma UnauthenticatedRejected(s: State, req: Request, x: Services)
    requires req.httpMethod != "OPTIONS" && Truthy(req.authorization) && x.clientError.None? && !x.auth.SignedIn?
    ensures Handle(s, req, x) == Outcome(NotAuthenticated, s)
    ensures NotAuthenticated.Status() == 401 && NotAuthenticated.Error() == Some("Not authenticated")
  {
  }

  /** A failed credits read, or no credits row, gives 400 and changes nothing. */
  lemma CreditsUnreadableRejected(s: State, req: Request, x: Services)
    requires req.httpMethod != "OPTIONS" && Truthy(req.authorization) && x.clientError.None? && x.auth.SignedIn?
    requires x.creditsReadFails || x.auth.user !in s.balances
    ensures Handle(s, req, x) == Outcome(CreditsUnavailable, s)
    ensures CreditsUnavailable.Status() == 400 && CreditsUnavailable.Error() == Some("Could not fetch user credits")
  {
  }

  /**
    A balance below the price (or null) gives 402 with the price and the balance read,
    and changes nothing. The body is not looked at, so a missing prompt still gets 402.
  */
  lemma InsufficientCreditsRejected(s: State, req: Request, x: Services)
    requires req.httpMethod != "OPTIONS" && Truthy(req.authorization) && x.clientError.None? && x.auth.SignedIn?
    requires !x.creditsReadFails && x.auth.user in s.balances
    requires s.balances[x.auth.user].None? || s.balances[x.auth.user].value < 10
    ensures Handle(s, req, x) == Outcome(NotEnoughCredits(10, s.balances[x.auth.user]), s)
    ensures Handle(s, req, x).response.Status() == 402
  {
  }

  /** A falsy prompt (absent or empty) gives 400 "No prompt provided": nothing generated, nothing charged. */
  lemma MissingPromptRejected(s: State, req: Request, x: Services)
    requires req.httpMethod != "OPTIONS" && Truthy(req.authorization) && x.clientError.None? && x.auth.SignedIn?
    requires !x.creditsReadFails && x.auth.user in s.balances
    requires s.balances[x.auth.user].Some? && s.balances[x.auth.user].value >= 10
    requires req.body.Json? && !Truthy(req.body.prompt)
    ensures Handle(s, req, x) == Outcome(NoPrompt, s)
    ensures NoPrompt.Status() == 400 && NoPrompt.Error() == Some("No prompt provided")
  {
  }

  /** The prompt check is truthiness only: any non-empty prompt of blanks is admitted and sent to the generator. */
  lemma BlankPromptAdmitted(s: State, req: Request, x: Services, p: string)
    requires req.httpMethod != "OPTIONS" && Truthy(req.authorization) && x.clientError.None? && x.auth.SignedIn?
    requires !x.creditsReadFails && x.auth.user in s.balances
    requires s.balances[x.auth.user].Some? && s.balances[x.auth.user].value >= 10
    requires req.body == Json(Some(p)) && |p| > 0 && forall i :: 0 <= i < |p| ==> p[i] == ' '
    ensures Admissible(s.balances, req, x)
    ensures Handle(s, req, x).after.effects[|s.effects|] == TextToImage(p)
  {
  }

  /** A failure to build the Supabase client (an empty URL or key) is caught as a 500 before the session is looked up. */
  lemma ClientConstructionFails(s: State, req: Request, x: Services)
    requires req.httpMethod != "OPTIONS" && Truthy(req.authorization) && x.clientError.Some?
    ensures Handle(s, req, x) == Outcome(ServerError(x.clientError.value), s)
    ensures Handle(s, req, x).response.Status() == 500
  {
  }

  /** A body that is not JSON is caught by the outer handler: 500 with the parser's message, nothing changed. */
  lemma UnparsableBodyFails(s: State, req: Request, x: Services)
    requires Truthy(req.authorization) && x.clientError.None? && x.auth.SignedIn? && !x.creditsReadFails
    requires req.httpMethod != "OPTIONS" && x.auth.user in s.balances
    requires s.balances[x.auth.user].Some? && s.balances[x.auth.user].value >= 10
    requires req.body.Unparsable?
    ensures Handle(s, req, x) == Outcome(ServerError(req.body.message), s)
  {
  }

  /** Every early response leaves tables and call log exactly as they were. */
  lemma RejectionChangesNothing(s: State, req: Request, x: Services)
    requires !Admissible(s.balances, req, x)
    ensures Handle(s, req, x).after == s
    ensures Handle(s, req, x).response.Status() != 200 || Handle(s, req, x).response == Preflight
  {
  }

  // ---------------------------------------------------------------------------
  // Generation and bookkeeping
  // ---------------------------------------------------------------------------

  /** Nothing is charged before an image exists: when generation throws, the only trace is the generator call. */
  lemma GenerationFailureChargesNothing(s: State, req: Request, x: Services)
    requires Admissible(s.balances, req, x)
    requires x.image.Threw?
    ensures Handle(s, req, x).response == ServerError(x.image.message)
    ensures Handle(s, req, x).response.Status() == 500
    ensures var t := Handle(s, req, x).after;
      t.balances == s.balances && t.transactions == s.transactions && t.generations == s.generations &&
      t.effects == s.effects + [TextToImage(req.body.prompt.value)]
  {
  }

  /**
    After a generated image the calls go out in a fixed order: the generator, the
    `ai_generations` insert carrying the very URL returned, `deduct_credits(10)`, then the
    `credit_transactions` insert of 10 for "image_generation". The response is 200 with
    the balance read minus 10, which is not negative, whichever writes failed.
  */
  lemma GeneratedResponse(s: State, req: Request, x: Services)
    requires Admissible(s.balances, req, x)
    requires x.image.Image?
    ensures var o, u, p := Handle(s, req, x), x.auth.user, req.body.prompt.value;
      o.response == Generated(DataUrl(x.image.bytes), s.balances[u].value - 10) &&
      o.response.Status() == 200 && o.response.remainingCredits >= 0 &&
      o.after.effects == s.effects + [
        TextToImage(p),
        InsertGeneration(GenerationRow(u, p, "image_generation", o.response.image)),
        DeductCredits(u, 10),
        InsertTransaction(TransactionRow(u, 10, "image_generation"))]
  {
  }

  /**
    Each write lands or not on its own. The generation and transaction rows appear
    exactly when their inserts succeed, and the stored balance is the one read minus
    10 exactly when `deduct_credits` succeeds; other users are untouched. When the
    deduction fails the response's `remainingCredits` disagrees with what is stored.
  */
  lemma GeneratedWrites(s: State, req: Request, x: Services)
    requires Admissible(s.balances, req, x)
    requires x.image.Image?
    ensures var o, u, p := Handle(s, req, x), x.auth.user, req.body.prompt.value;
      var balance := s.balances[u].value;
      o.after.generations ==
        s.generations + (if x.generationInsertOk then [GenerationRow(u, p, "image_generation", o.response.image)] else []) &&
      o.after.transactions ==
        s.transactions + (if x.transactionInsertOk then [TransactionRow(u, 10, "image_generation")] else []) &&
      o.after.balances == s.balances[u := Some(if x.deductOk then balance - 10 else balance)] &&
      (o.after.balances[u] == Some(o.response.remainingCredits) <==> x.deductOk)
  {
  }

  /**
    On the generated path the ledger still adds up exactly when the deduction and the
    transaction insert both succeed or both fail; either one alone breaks
    "spent = initial − balance". Every other path keeps it.
  */
  lemma HandleCorrespondence(s: State, req: Request, x: Services)
    ensures Corresponds(s, Handle(s, req, x).after) <==>
      !(Admissible(s.balances, req, x) && x.image.Image?) ||
      x.deductOk == x.transactionInsertOk
  {
    var t := Handle(s, req, x).after;
    if Admissible(s.balances, req, x) && x.image.Image? {
      var u := x.auth.user;
      GeneratedWrites(s, req, x);
      if x.transactionInsertOk {
        var row := TransactionRow(u, 10, "image_generation");
        forall v ensures Reconciles(s, t, v) <==> (v == u ==> x.deductOk) {
          ReconcilesOneRow(s, t, row, v);
        }
        if !x.deductOk {
          assert !Reconciles(s, t, u);
        }
      } else {
        forall v ensures Reconciles(s, t, v) <==> (v == u ==> !x.deductOk) {
          ReconcilesNoRow(s, t, v);
        }
        if x.deductOk {
          assert !Reconciles(s, t, u);
        }
      }
    } else {
      forall v ensures Reconciles(s, t, v) {
        ReconcilesNoRow(s, t, v);
      }
    }
  }

  /** With a single request at a time, the balance guard keeps every stored balance non-negative. */
  lemma HandleKeepsNonNegative(s: State, req: Request, x: Services)
    requires NonNegative(s)
    ensures NonNegative(Handle(s, req, x).after)
  {
    if Admissible(s.balances, req, x) && x.image.Image? {
      GeneratedWrites(s, req, x);
    }
  }
}
