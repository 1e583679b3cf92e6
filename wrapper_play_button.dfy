/**
 * The wrapper around the play button: it fetches the signed-in user's data, and it
 * drives one payment (token request, hosted form, gateway callback, settlement).
 * The orders the gateway and the backend answer in are events the caller feeds in;
 * what is sent to them is kept in a ghost log.
 */
module WrapperPlayButton {
  import opened Options
  import opened Catalog
  import opened Formatting
  import PayConfig
  import PlayButton

  /** The row the user-data backend returns for the signed-in email. */
  datatype UserRow = UserRow(id: nat, movies: Option<seq<MovieEntry>>)

  /** How the user-data fetch ends: it throws, or it yields the `data` rows. */
  datatype FetchOutcome = FetchFailed | FetchOk(data: seq<UserRow>)

  /** What `getDataOrderDynamic()` returns. */
  datatype DynamicOrder = DynamicOrder(transactionId: string, currentTimeUnix: int)

  /** The constants of one `handlePayment` call, which its callbacks close over. */
  datatype PaymentContext = PaymentContext(
    transactionId: string,
    orderNumber: string,
    currency: string,
    amount: string,
    clientId: string,
    movieId: string,
    merchantCode: string,
    publicKey: string,
    currentTimeUnix: int)

  /** The body of `getTokenSession`, with the transaction id it is sent under. */
  datatype TokenRequest = TokenRequest(
    transactionId: string,
    requestSource: string,
    merchantCode: string,
    orderNumber: string,
    publicKey: string,
    amount: string)

  /** The arguments of `saveMoviePay`. */
  datatype SettlementCall = SettlementCall(transactionId: string, clientId: string, movieId: string, amount: string)

  /** The `response` part of the token reply; `None` stands for an absent (`undefined`) field. */
  datatype TokenBody = TokenBody(token: Option<string>, error: Option<string>)

  /** The token reply `authorization`. */
  datatype Authorization = Authorization(response: Option<TokenBody>)

  const OrderCurrency := "PEN"
  const RequestSource := "ECOMMERCE"
  const DefaultTokenError := "NODE_API"

  /** `${userInfo?.id}`. */
  function ClientIdText(userInfo: Option<UserRow>): (s: string)
    ensures userInfo.None? ==> s == "undefined"
    ensures userInfo.Some? ==> AllDigits(s) && DigitsValue(s) == userInfo.value.id
    ensures userInfo.Some? ==> s == NatToString(userInfo.value.id)
  {
    if userInfo.Some? then
      NatToStringRoundTrip(userInfo.value.id);
      NatToString(userInfo.value.id)
    else
      "undefined"
  }

  /**
   * `handlePay` and the derivations at the head of `handlePayment`: one generated id is
   * both the transaction id and the order number, the currency is always soles, and the
   * amount is the movie's price with exactly two decimals.
   */
  function PaymentContextFor(movie: Movie, userInfo: Option<UserRow>, order: DynamicOrder,
                             merchantCode: string, publicKey: string): (ctx: PaymentContext)
    ensures ctx.transactionId == order.transactionId && ctx.orderNumber == order.transactionId
    ensures ctx.currency == OrderCurrency
    ensures ParseFixed2(ctx.amount) == Some(movie.priceCents)
    ensures ctx.clientId == ClientIdText(userInfo)
    ensures AllDigits(ctx.movieId) && DigitsValue(ctx.movieId) == movie.id
    ensures ctx.movieId == NatToString(movie.id) && ctx.amount == ToFixed2(movie.priceCents)
    ensures ctx.merchantCode == merchantCode && ctx.publicKey == publicKey
    ensures ctx.currentTimeUnix == order.currentTimeUnix
  {
    Fixed2RoundTrip(movie.priceCents);
    NatToStringRoundTrip(movie.id);
    PaymentContext(order.transactionId, order.transactionId, OrderCurrency, ToFixed2(movie.priceCents),
                   ClientIdText(userInfo), NatToString(movie.id), merchantCode, publicKey, order.currentTimeUnix)
  }

  /** The body of the `getTokenSession` request: the attempt's order and keys, from the e-commerce channel. */
  function TokenRequestFor(ctx: PaymentContext): (r: TokenRequest)
    ensures r.transactionId == ctx.transactionId && r.orderNumber == ctx.orderNumber
    ensures r.requestSource == "ECOMMERCE"
    ensures r.merchantCode == ctx.merchantCode && r.publicKey == ctx.publicKey
    ensures r.amount == ctx.amount
  {
    TokenRequest(ctx.transactionId, RequestSource, ctx.merchantCode, ctx.orderNumber, ctx.publicKey, ctx.amount)
  }

  /** The `iziConfigFuntion` call of `handleLoadForm`: the attempt's order; every other part is the fixed one. */
  function ConfigFor(ctx: PaymentContext): (r: PayConfig.IziConfig)
    ensures PayConfig.ArgsOf(r) == PayConfig.ConfigArgs(
      ctx.transactionId, ctx.merchantCode, ctx.orderNumber, ctx.currency, ctx.amount, ctx.currentTimeUnix)
    ensures PayConfig.HasFixedParts(r)
  {
    PayConfig.IziConfigFunction(PayConfig.ConfigArgs(
      ctx.transactionId, ctx.merchantCode, ctx.orderNumber, ctx.currency, ctx.amount, ctx.currentTimeUnix))
  }

  /** The `saveMoviePay` arguments: the attempt's id, the client and movie ids as sent, and the amount text. */
  function SettlementCallFor(ctx: PaymentContext): (r: SettlementCall)
    ensures r.transactionId == ctx.transactionId
    ensures r.clientId == ctx.clientId && r.movieId == ctx.movieId
    ensures r.amount == ctx.amount
  {
    SettlementCall(ctx.transactionId, ctx.clientId, ctx.movieId, ctx.amount)
  }

  /** The token request, the gateway configuration and the settlement call name one order and one amount. */
  predicate SameOrder(req: TokenRequest, cfg: PayConfig.IziConfig, call: SettlementCall) {
    && req.transactionId == req.orderNumber
    && cfg.config.transactionId == req.transactionId
    && cfg.config.order.orderNumber == req.transactionId
    && call.transactionId == req.transactionId
    && cfg.config.order.amount == req.amount
    && call.amount == req.amount
  }

  /** One attempt's three outgoing messages carry the generated id and the price formatted once. */
  lemma {:induction false} OneOrderEverywhere(movie: Movie, userInfo: Option<UserRow>, order: DynamicOrder,
                                              merchantCode: string, publicKey: string)
    ensures var ctx := PaymentContextFor(movie, userInfo, order, merchantCode, publicKey);
      && SameOrder(TokenRequestFor(ctx), ConfigFor(ctx), SettlementCallFor(ctx))
      && TokenRequestFor(ctx).transactionId == order.transactionId
      && ParseFixed2(SettlementCallFor(ctx).amount) == Some(movie.priceCents)
      && ConfigFor(ctx).config.order.currency == OrderCurrency
  {
    var ctx := PaymentContextFor(movie, userInfo, order, merchantCode, publicKey);
    assert PayConfig.ArgsOf(ConfigFor(ctx)).orderAmount == ctx.amount;
  }

  /** The token of a reply, when it is truthy (present and non-empty). */
  function TokenOf(auth: Authorization): (t: Option<string>)
    ensures t.Some? ==> t.value != ""
    ensures auth.response.None? ==> t.None?
    ensures t.Some? <==> auth.response.Some? && auth.response.value.token.Some? && auth.response.value.token.value != ""
    ensures t.Some? ==> auth.response.Some? && t == auth.response.value.token
  {
    match auth.response
    case None => None
    case Some(body) => if body.token.Some? && body.token.value != "" then body.token else None
  }

  /** The error of a reply, `'NODE_API'` when the reply has no `response` at all. */
  function ErrorOf(auth: Authorization): (e: Option<string>)
    ensures auth.response.None? ==> e == Some(DefaultTokenError)
    ensures auth.response.Some? ==> e == auth.response.value.error
  {
    match auth.response
    case None => Some(DefaultTokenError)
    case Some(body) => body.error
  }

  /** Which continuation of a `handlePayment` call is pending. */
  datatype Stage =
    | AwaitingToken                           // the token request has not been answered
    | NoToken                                 // the reply had no token: nothing more happens
    | FormFailed                              // building the form threw: nothing more happens
    | FormOpen(token: string, loadedAt: nat)  // the form is loaded (event `loadedAt` of the log)

  /** One `handlePayment` call: its constants, its pending continuation, and where its token request is logged. */
  datatype Attempt = Attempt(ctx: PaymentContext, stage: Stage, requestedAt: nat)

  /** An outgoing call or an incoming answer, tagged with the attempt it belongs to. */
  datatype Event =
    | TokenRequested(attempt: nat, request: TokenRequest)
    | TokenReceived(attempt: nat, token: Option<string>, error: Option<string>)
    | FormLoaded(attempt: nat, formToken: string, config: PayConfig.IziConfig)
    | GatewayCallback(attempt: nat, code: string)
    | SettlementRequested(attempt: nat, call: SettlementCall)
    | SettlementAnswered(attempt: nat, settlement: nat, result: Option<int>)

  /** Attempt `k` sent its token request, and, once its form is open, was loaded with its own configuration. */
  ghost predicate AttemptOk(log: seq<Event>, a: Attempt, k: nat) {
    && a.ctx.orderNumber == a.ctx.transactionId
    && a.ctx.currency == OrderCurrency
    && a.requestedAt < |log|
    && log[a.requestedAt] == TokenRequested(k, TokenRequestFor(a.ctx))
    && (a.stage.FormOpen? ==>
          && a.requestedAt < a.stage.loadedAt < |log|
          && log[a.stage.loadedAt] == FormLoaded(k, a.stage.token, ConfigFor(a.ctx)))
  }

  /** What event `i` of the log may be, given what came before it. */
  ghost predicate EventOk(log: seq<Event>, attempts: seq<Attempt>, i: nat)
    requires i < |log|
  {
    var k := log[i].attempt;
    k < |attempts| && attempts[k].requestedAt <= i &&
    match log[i]
    case TokenRequested(_, req) => req == TokenRequestFor(attempts[k].ctx)
    case TokenReceived(_, _, _) => true
    case FormLoaded(_, token, cfg) =>
      && 0 < i && log[i - 1].TokenReceived? && log[i - 1].attempt == k && log[i - 1].token == Some(token)
      && token != "" && cfg == ConfigFor(attempts[k].ctx)
    case GatewayCallback(_, _) =>
      attempts[k].stage.FormOpen? && attempts[k].stage.loadedAt < i
    case SettlementRequested(_, call) =>
      0 < i && log[i - 1] == GatewayCallback(k, "00") && call == SettlementCallFor(attempts[k].ctx)
    case SettlementAnswered(_, req, _) =>
      req < i && log[req].SettlementRequested? && log[req].attempt == k
  }

  ghost predicate TraceOk(log: seq<Event>, attempts: seq<Attempt>) {
    && (forall k :: 0 <= k < |attempts| ==> AttemptOk(log, attempts[k], k))
    && (forall i :: 0 <= i < |log| ==> EventOk(log, attempts, i))
  }

  /** Attempt `k` kept its constants, and a form once open stays open. */
  ghost predicate AttemptExtends(a: Attempt, a': Attempt) {
    && a'.ctx == a.ctx
    && a'.requestedAt == a.requestedAt
    && (a.stage.FormOpen? ==> a'.stage == a.stage)
  }

  /** Growing the log and advancing attempts keeps every earlier event and every untouched attempt in order. */
  lemma {:induction false} TraceGrows(log: seq<Event>, attempts: seq<Attempt>, log': seq<Event>, attempts': seq<Attempt>)
    requires TraceOk(log, attempts)
    requires |log| <= |log'| && log'[..|log|] == log
    requires |attempts| <= |attempts'|
    requires forall k :: 0 <= k < |attempts| ==> AttemptExtends(attempts[k], attempts'[k])
    ensures forall i :: 0 <= i < |log| ==> EventOk(log', attempts', i)
    ensures forall k :: 0 <= k < |attempts| && attempts'[k] == attempts[k] ==> AttemptOk(log', attempts'[k], k)
    ensures SomeSettlementSucceeded(log) ==> SomeSettlementSucceeded(log')
  {
    forall i | 0 <= i < |log| ensures EventOk(log', attempts', i) {
      assert EventOk(log, attempts, i);
      assert log'[i] == log[i];
      if 0 < i {
        assert log'[i - 1] == log[i - 1];
      }
      var k := log[i].attempt;
      assert AttemptExtends(attempts[k], attempts'[k]);
      if log[i].SettlementAnswered? {
        assert log'[log[i].settlement] == log[log[i].settlement];
      }
    }
    forall k | 0 <= k < |attempts| && attempts'[k] == attempts[k] ensures AttemptOk(log', attempts'[k], k) {
      assert AttemptOk(log, attempts[k], k);
      var a := attempts[k];
      assert log'[a.requestedAt] == log[a.requestedAt];
      if a.stage.FormOpen? {
        assert log'[a.stage.loadedAt] == log[a.stage.loadedAt];
      }
    }
    if SomeSettlementSucceeded(log) {
      var j :| 0 <= j < |log| && log[j].SettlementAnswered? && log[j].result == Some(1);
      assert log'[j] == log[j];
    }
  }

  /** The trace after attempt `k`'s token reply, possibly followed by the loading of its form, is still in order. */
  lemma {:induction false} TokenReplyKeepsTrace(log: seq<Event>, attempts: seq<Attempt>, k: nat, received: Event,
                                                loaded: seq<Event>, stage: Stage)
    requires TraceOk(log, attempts)
    requires k < |attempts| && attempts[k].stage.AwaitingToken?
    requires received.TokenReceived? && received.attempt == k
    requires stage.FormOpen? ==>
      && received.token == Some(stage.token) && stage.token != "" && stage.loadedAt == |log| + 1
      && loaded == [FormLoaded(k, stage.token, ConfigFor(attempts[k].ctx))]
    requires !stage.FormOpen? ==> loaded == []
    ensures TraceOk(log + [received] + loaded, attempts[k := attempts[k].(stage := stage)])
    ensures SomeSettlementSucceeded(log) ==> SomeSettlementSucceeded(log + [received] + loaded)
  {
    var log', attempts' := log + [received] + loaded, attempts[k := attempts[k].(stage := stage)];
    assert log'[..|log|] == log;
    TraceGrows(log, attempts, log', attempts');
    var a := attempts[k];
    assert AttemptOk(log, a, k);
    assert log'[a.requestedAt] == log[a.requestedAt];
    assert AttemptOk(log', attempts'[k], k);
    assert EventOk(log', attempts', |log|);
    if stage.FormOpen? {
      assert EventOk(log', attempts', |log| + 1);
    }
  }

  /** The events a gateway callback for attempt `k` appends: the callback, then the settlement request if it approves. */
  function CallbackEvents(attempts: seq<Attempt>, k: nat, code: string): (r: seq<Event>)
    requires k < |attempts|
    ensures |r| == (if code == "00" then 2 else 1)
    ensures r[0] == GatewayCallback(k, code)
    ensures code == "00" ==> r[1] == SettlementRequested(k, SettlementCallFor(attempts[k].ctx))
  {
    [GatewayCallback(k, code)] + (if code == "00" then [SettlementRequested(k, SettlementCallFor(attempts[k].ctx))] else [])
  }

  /** The trace after a gateway callback for an attempt whose form is open is still in order. */
  lemma {:induction false} CallbackKeepsTrace(log: seq<Event>, attempts: seq<Attempt>, k: nat, code: string)
    requires TraceOk(log, attempts)
    requires k < |attempts| && attempts[k].stage.FormOpen?
    ensures TraceOk(log + CallbackEvents(attempts, k, code), attempts)
    ensures SomeSettlementSucceeded(log) ==> SomeSettlementSucceeded(log + CallbackEvents(attempts, k, code))
  {
    var log' := log + CallbackEvents(attempts, k, code);
    assert log'[..|log|] == log;
    TraceGrows(log, attempts, log', attempts);
    assert AttemptOk(log, attempts[k], k);
    assert EventOk(log', attempts, |log|);
    if code == "00" {
      assert EventOk(log', attempts, |log| + 1);
    }
  }

  /** The settlement request logged at `req` has been answered. */
  ghost predicate Answered(log: seq<Event>, req: nat) {
    exists j :: 0 <= j < |log| && log[j].SettlementAnswered? && log[j].settlement == req
  }

  /** Some settlement answered with the success code. */
  ghost predicate SomeSettlementSucceeded(log: seq<Event>) {
    exists j :: 0 <= j < |log| && log[j].SettlementAnswered? && log[j].result == Some(1)
  }

  /**
   * Every settlement request comes right after an approving callback of a form that
   * was loaded after a token request, and the three messages describe the same order.
   */
  lemma {:induction false} SettlementOnlyAfterApproval(log: seq<Event>, attempts: seq<Attempt>, i: nat)
    requires TraceOk(log, attempts)
    requires i < |log| && log[i].SettlementRequested?
    ensures 0 < i && log[i - 1] == GatewayCallback(log[i].attempt, "00")
    ensures exists r, f ::
              && 0 <= r < f < i - 1
              && log[r].TokenRequested? && log[r].attempt == log[i].attempt
              && log[f].FormLoaded? && log[f].attempt == log[i].attempt && log[f].formToken != ""
              && SameOrder(log[r].request, log[f].config, log[i].call)
  {
    var k := log[i].attempt;
    assert EventOk(log, attempts, i);
    assert EventOk(log, attempts, i - 1);
    assert AttemptOk(log, attempts[k], k);
    var a := attempts[k];
    var r, f := a.requestedAt, a.stage.loadedAt;
    assert EventOk(log, attempts, f);
    assert SameOrder(log[r].request, log[f].config, log[i].call);
  }

  /** A successful settlement answer belongs to a settlement that followed an approving callback. */
  lemma {:induction false} SuccessOnlyAfterApproval(log: seq<Event>, attempts: seq<Attempt>)
    requires TraceOk(log, attempts)
    requires SomeSettlementSucceeded(log)
    ensures exists c, j ::
              && 0 <= c < j < |log| && log[c].GatewayCallback? && log[c].code == "00"
              && log[j].SettlementAnswered? && log[j].result == Some(1) && log[c].attempt == log[j].attempt
  {
    var j :| 0 <= j < |log| && log[j].SettlementAnswered? && log[j].result == Some(1);
    assert EventOk(log, attempts, j);
    var req := log[j].settlement;
    SettlementOnlyAfterApproval(log, attempts, req);
    assert log[req - 1].GatewayCallback? && log[req - 1].code == "00";
  }

  /** The state of one `WrapperPlayButton` component. */
  class PaymentFlow {
    const movie: Movie
    const merchantCode: string      // NEXT_PUBLIC_MERCHANT_CODE
    const publicKey: string         // NEXT_PUBLIC_PUBLIC_KEY
    var isLoading: bool
    var isPaymentCompleted: bool
    var userInfo: Option<UserRow>
    var userMovieList: Option<seq<MovieEntry>>
    ghost var attempts: seq<Attempt>   // one per `handlePayment` call, in call order
    ghost var log: seq<Event>          // calls to the gateway and the backend and their answers, in order

    ghost predicate Valid()
      reads this
    {
      && TraceOk(log, attempts)
      && (isPaymentCompleted ==> SomeSettlementSucceeded(log))
    }

    constructor (movie: Movie, merchantCode: string, publicKey: string)
      ensures Valid()
      ensures this.movie == movie && this.merchantCode == merchantCode && this.publicKey == publicKey
      ensures !isLoading && !isPaymentCompleted && userInfo == None && userMovieList == None
      ensures attempts == [] && log == []
    {
      this.movie := movie;
      this.merchantCode := merchantCode;
      this.publicKey := publicKey;
      isLoading := false;
      isPaymentCompleted := false;
      userInfo := None;
      userMovieList := None;
      attempts := [];
      log := [];
    }

    /** The fetch effect starts: the spinner goes up. */
    method StartUserFetch()
      requires Valid()
      modifies this`isLoading
      ensures Valid() && isLoading
    {
      isLoading := true;
    }

    /**
     * The fetch effect ends: a first row, if any, becomes `userInfo`; its movie list, if
     * it has one, becomes `userMovieList`; the spinner comes down in every case.
     */
    method CompleteUserFetch(outcome: FetchOutcome)
      requires Valid()
      modifies this`isLoading, this`userInfo, this`userMovieList
      ensures Valid() && !isLoading
      ensures outcome.FetchOk? && |outcome.data| > 0 ==> userInfo == Some(outcome.data[0])
      ensures !(outcome.FetchOk? && |outcome.data| > 0) ==> userInfo == old(userInfo)
      ensures (outcome.FetchOk? && |outcome.data| > 0 && outcome.data[0].movies.Some?) ==>
                userMovieList == outcome.data[0].movies
      ensures !(outcome.FetchOk? && |outcome.data| > 0 && outcome.data[0].movies.Some?) ==>
                userMovieList == old(userMovieList)
    {
      if outcome.FetchOk? && |outcome.data| > 0 {
        var userData := outcome.data[0];
        userInfo := Some(userData);
        if userData.movies.Some? {
          userMovieList := userData.movies;
        }
      }
      isLoading := false;
    }

    /**
     * A press of the button, given the session. The purchased list must have been
     * fetched by the time a signed-in user presses a paid title's button.
     */
    method Press(hasSession: bool, status: PlayButton.SessionStatus) returns (a: PlayButton.Action)
      requires (!PlayButton.ShowsSpinner(isLoading, status) && hasSession &&
                PlayButton.IsPaid(PlayButton.Classify(movie.paymentType))) ==> userMovieList.Some?
      ensures a == PlayButton.Press(isLoading, status, PlayButton.Classify(movie.paymentType), hasSession,
                                    if userMovieList.Some? then userMovieList.value else [], movie.slug)
      ensures a == PlayButton.StartPayment ==>
                hasSession && !isLoading && userMovieList.Some? && !PlayButton.Owns(userMovieList.value, movie.slug)
    {
      var list := if userMovieList.Some? then userMovieList.value else [];
      a := PlayButton.Press(isLoading, status, PlayButton.Classify(movie.paymentType), hasSession, list, movie.slug);
    }

    /**
     * `handlePay`: a new attempt with a freshly generated order asks the gateway for a
     * token. Nothing else changes; in particular a press while a payment is under way
     * is not refused.
     */
    method HandlePay(order: DynamicOrder)
      requires Valid()
      modifies this`attempts, this`log
      ensures Valid()
      ensures var ctx := PaymentContextFor(movie, userInfo, order, merchantCode, publicKey);
        && attempts == old(attempts) + [Attempt(ctx, AwaitingToken, |old(log)|)]
        && log == old(log) + [TokenRequested(|old(attempts)|, TokenRequestFor(ctx))]
    {
      var ctx := PaymentContextFor(movie, userInfo, order, merchantCode, publicKey);
      ghost var k := |attempts|;
      ghost var n := |log|;
      ghost var log0, attempts0 := log, attempts;
      attempts := attempts + [Attempt(ctx, AwaitingToken, n)];
      log := log + [TokenRequested(k, TokenRequestFor(ctx))];
      assert log[..n] == log0;
      TraceGrows(log0, attempts0, log, attempts);
      assert EventOk(log, attempts, n);
      assert AttemptOk(log, attempts[k], k);
    }

    /**
     * The token reply of attempt `k` arrives. With a token the spinner goes up and the
     * form is built and loaded (unless the SDK throws, `sdkLoads == false`); without one
     * nothing but the log changes.
     */
    method ReceiveToken(ghost k: nat, auth: Authorization, sdkLoads: bool)
      requires Valid()
      requires k < |attempts| && attempts[k].stage.AwaitingToken?
      modifies this`isLoading, this`attempts, this`log
      ensures Valid()
      ensures |attempts| == |old(attempts)|
      ensures forall j :: 0 <= j < |attempts| && j != k ==> attempts[j] == old(attempts)[j]
      ensures attempts[k].ctx == old(attempts)[k].ctx && attempts[k].requestedAt == old(attempts)[k].requestedAt
      ensures TokenOf(auth).None? ==>
        && isLoading == old(isLoading)
        && log == old(log) + [TokenReceived(k, None, ErrorOf(auth))]
        && attempts[k].stage == NoToken
      ensures TokenOf(auth).Some? && !sdkLoads ==>
        && isLoading
        && log == old(log) + [TokenReceived(k, TokenOf(auth), ErrorOf(auth))]
        && attempts[k].stage == FormFailed
      ensures TokenOf(auth).Some? && sdkLoads ==>
        && isLoading
        && log == old(log) + [TokenReceived(k, TokenOf(auth), ErrorOf(auth)),
                              FormLoaded(k, TokenOf(auth).value, ConfigFor(attempts[k].ctx))]
        && attempts[k].stage == FormOpen(TokenOf(auth).value, |old(log)| + 1)
    {
      var token := TokenOf(auth);
      ghost var a := attempts[k];
      ghost var n := |log|;
      ghost var received := TokenReceived(k, token, ErrorOf(auth));
      ghost var loaded: seq<Event> := [];
      ghost var stage := NoToken;
      if token.Some? {
        isLoading := true;
        if sdkLoads {
          loaded := [FormLoaded(k, token.value, ConfigFor(a.ctx))];
          stage := FormOpen(token.value, n + 1);
        } else {
          stage := FormFailed;
        }
      }
      TokenReplyKeepsTrace(log, attempts, k, received, loaded, stage);
      log := log + [received] + loaded;
      attempts := attempts[k := a.(stage := stage)];
    }

    /**
     * The gateway calls back attempt `k`'s loaded form. Code `"00"` makes the settlement
     * call with the attempt's own order; any other code clears both flags.
     */
    method GatewayResponds(ghost k: nat, code: string)
      requires Valid()
      requires k < |attempts| && attempts[k].stage.FormOpen?
      modifies this`isLoading, this`isPaymentCompleted, this`log
      ensures Valid() && attempts == old(attempts)
      ensures code == "00" ==>
        && log == old(log) + [GatewayCallback(k, code), SettlementRequested(k, SettlementCallFor(attempts[k].ctx))]
        && isLoading == old(isLoading) && isPaymentCompleted == old(isPaymentCompleted)
      ensures code != "00" ==> log == old(log) + [GatewayCallback(k, code)] && !isLoading && !isPaymentCompleted
    {
      CallbackKeepsTrace(log, attempts, k, code);
      log := log + CallbackEvents(attempts, k, code);
      if code != "00" {
        isPaymentCompleted := false;
        isLoading := false;
      }
    }

    /**
     * The backend answers the settlement request logged at `req`. Only the code `1`
     * marks the payment completed (and lowers the spinner); any other code leaves both
     * flags as they were.
     */
    method SettlementResponds(ghost req: nat, code: Option<int>)
      requires Valid()
      requires req < |log| && log[req].SettlementRequested? && !Answered(log, req)
      modifies this`isLoading, this`isPaymentCompleted, this`log
      ensures Valid() && attempts == old(attempts)
      ensures log == old(log) + [SettlementAnswered(old(log)[req].attempt, req, code)]
      ensures code == Some(1) ==> isPaymentCompleted && !isLoading
      ensures code != Some(1) ==> isPaymentCompleted == old(isPaymentCompleted) && isLoading == old(isLoading)
    {
      ghost var n := |log|;
      ghost var log0 := log;
      assert EventOk(log, attempts, req);
      log := log + [SettlementAnswered(log[req].attempt, req, code)];
      if code == Some(1) {
        isPaymentCompleted := true;
        isLoading := false;
      }
      assert log[..n] == log0;
      TraceGrows(log0, attempts, log, attempts);
      assert log[req] == log0[req];
      assert EventOk(log, attempts, n);
      if code == Some(1) {
        assert log[n].SettlementAnswered? && log[n].result == Some(1);
      }
    }
  }
}
