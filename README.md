# Entitlement and single-purchase payment on the movie-detail hero card

This project is a Dafny model of how the Cinergia web app decides what a press of
the play button on a movie's detail page does, and of the one-movie payment flow
that press may start with the Izipay gateway. Around that core it also models two
small pure parts and one rule:

- the banner the hero card shows for each payment type, with its price line;
- the configuration object handed to the Izipay checkout;
- the rule that creates a backend user at sign-in only when no user has that email.

Modules, one per source file, plus shared shapes:

- Catalog: the movie record and the purchased-movie entries. `payment_type` is kept raw: `null`, absent, or a string.
- Formatting: `${n}` for ids, and `Number(price).toFixed(2)` for a price held as a whole number of cents.
- `PlayButton` (`PlayButton.tsx`): the `PaymentType` enumeration, `handleClick` as a pure decision, and the spinner guard.
- `HeroCard` (`HeroCard.tsx`): the `paymentTypeConfig` table, the lookup with its `default` fallback, and the price line.
- `PayConfig` (`iziConfig.js`): `iziConfigFuntion` as a record constructor. The `Izipay.enums` members are opaque constants.
- `WrapperPlayButton` (`WrapperPlayButton.tsx`): the pure derivations of one payment's constants, and a class `PaymentFlow`.
  - The class holds the component state (`isLoading`, `isPaymentCompleted`, `userInfo`, `userMovieList`).
  - It has one method per event: fetch start, fetch end, press, `handlePay`, token reply, gateway callback, settlement reply.
  - A ghost log records every call and answer of the payment flow, in order: token request, token reply, form load, gateway callback, settlement call, settlement answer. The user-data fetch is not logged.
- `CreateUser` (`createUser.ts`): the create body, and `validateUser`'s create-if-absent rule. The backend user table is a sequence of rows.
- Scenarios: walk-throughs of the flow: a press by a signed-in user that starts a payment, a `handlePay` that ends with the form open, an approval from any open form that completes the payment, a declined purchase, a missing token, and a second press after `handlePay` that decides exactly as the first.

External calls are inputs to the methods that receive their answers. They are
`getDataOrderDynamic`, `getTokenSession`, the Izipay SDK, the gateway callback,
`saveMoviePay` and `fetchUserData`. The environment variables `NEXT_PUBLIC_MERCHANT_CODE`
and `NEXT_PUBLIC_PUBLIC_KEY` are constructor parameters.

Where the system's design documentation and the code differ, the model follows the code:

- There is no in-flight guard. The payment flow raises `isLoading` only when a token arrives, so a press before that decides exactly as the first one did and starts a second attempt (`Scenarios.DoublePress`). Nothing answers `AlreadyInProgress`.
- Ownership is decided by slug equality in the fetched list, not by a (user id, title id) lookup.
- A free title goes to its free route before the session is looked at.
- Failures are not recorded anywhere. A token reply without a token is written to the console only when it carries an `error`. A form that fails to build is written to the console. A settlement answered with any code other than `1` is ignored, because that branch has no `else`; `isLoading` then stays true and the spinner stays up. There are no failure reasons and no reconciliation record.
- Settlement is not idempotent in the app: each approving callback makes one `saveMoviePay` call.
- A payment type that is absent (`undefined`) shows the free banner, but pressing the button does nothing.

## Model

| member | source | states |
|---|---|---|
| `Formatting.NatToString` | app/ui/components/MovieDetails/Hero/HeroCard/WrapperPlayButton/WrapperPlayButton.tsx:124-125 | an id is rendered as a non-empty string of decimal digits with no leading zero |
| `Formatting.NatToStringRoundTrip` | app/ui/components/MovieDetails/Hero/HeroCard/WrapperPlayButton/WrapperPlayButton.tsx:124-125 | the rendered digits denote the id they were made from |
| `Formatting.NatToStringInjective` | app/ui/components/MovieDetails/Hero/HeroCard/WrapperPlayButton/WrapperPlayButton.tsx:124-125 | distinct client or movie ids are sent as distinct strings |
| `Formatting.ToFixed2` | app/ui/components/MovieDetails/Hero/HeroCard/WrapperPlayButton/WrapperPlayButton.tsx:122 | the order amount has an integer part, a point and exactly two decimal digits |
| `Formatting.Fixed2RoundTrip` | app/ui/components/MovieDetails/Hero/HeroCard/WrapperPlayButton/WrapperPlayButton.tsx:122 | the formatted amount reads back as exactly the price in cents |
| `Formatting.ToFixed2Injective` | app/ui/components/MovieDetails/Hero/HeroCard/WrapperPlayButton/WrapperPlayButton.tsx:122 | two prices give the same amount text only if they are equal |
| `PlayButton.Classify` | app/ui/components/MovieDetails/Hero/HeroCard/PlayButton/PlayButton.tsx:13-42 | strict comparison: only `null` is free; "PT", "DO", "DV" are their members; `undefined` and other strings match nothing |
| `PlayButton.RoutesDiffer` | app/ui/components/MovieDetails/Hero/HeroCard/PlayButton/PlayButton.tsx:36-48 | the free route and the watch route of a slug are different routes |
| `PlayButton.SomeSlug` | app/ui/components/MovieDetails/Hero/HeroCard/PlayButton/PlayButton.tsx:46 | the `.some` scan is true iff some entry of the list has the movie's slug |
| `PlayButton.HandleClick` | app/ui/components/MovieDetails/Hero/HeroCard/PlayButton/PlayButton.tsx:33-62 | free always goes to `/peliculas/watch-free/{slug}`; for PT/DO sign-in iff no session; pay iff session and slug not owned (empty list included); watch route iff session and owned; nothing iff DV or any other value |
| `PlayButton.DecisionIgnoresIds` | app/ui/components/MovieDetails/Hero/HeroCard/PlayButton/PlayButton.tsx:46 | replacing every id in the purchased list leaves the decision unchanged |
| `PlayButton.SameIdOtherSlugStillPays` | app/ui/components/MovieDetails/Hero/HeroCard/PlayButton/PlayButton.tsx:45-52 | an entry with the movie's id but another slug does not count as owned: payment starts |
| `PlayButton.Press` | app/ui/components/MovieDetails/Hero/HeroCard/PlayButton/PlayButton.tsx:64-92 | while loading or while the session status is `'loading'` no action can happen; otherwise a press runs the click decision |
| `HeroCard.PaymentTypeConfig` | app/ui/components/MovieDetails/Hero/HeroCard/HeroCard.tsx:9-33 | the table has an entry exactly for the keys PT, DO, DV and `default` |
| `HeroCard.SelectConfig` | app/ui/components/MovieDetails/Hero/HeroCard/HeroCard.tsx:53-54 | PT, DO and DV select their own entries; every other value (`null`, `undefined`, any other string) selects the default entry |
| `HeroCard.BackgroundByType` | app/ui/components/MovieDetails/Hero/HeroCard/HeroCard.tsx:9-32 | green iff DO or DV, fucsia iff PT, blue iff anything else |
| `HeroCard.RenderBanner` | app/ui/components/MovieDetails/Hero/HeroCard/HeroCard.tsx:57-84 | the price line `S/{price} (PEN)` is shown iff `payment_type` is truthy; the other fields come from the selected entry |
| `HeroCard.TextOf` | app/ui/components/MovieDetails/Hero/HeroCard/HeroCard.tsx:57 | a missing `text` reads as `''` |
| `HeroCard.TotalPayLineHasEmptyText` | app/ui/components/MovieDetails/Hero/HeroCard/HeroCard.tsx:10-14 | the PT entry has no text, so its price line starts with empty text |
| `HeroCard.FreeBannerHasNoPrice` | app/ui/components/MovieDetails/Hero/HeroCard/HeroCard.tsx:75-81 | a `null` type shows the free banner without a price; PT, DO and DV show a price |
| `PayConfig.IziConfigFunction` | app/lib/pay/iziConfig.js:2-47 | each argument lands unchanged in its own field (transaction id, merchant code, order number, currency, amount, time); action, process type, pay method, billing, render and appearance are fixed |
| `PayConfig.ConfigDeterminedByArgs` | app/lib/pay/iziConfig.js:10-46 | two configurations are equal iff their arguments are; the fixed blocks are equal for all inputs |
| `WrapperPlayButton.ClientIdText` | app/ui/components/MovieDetails/Hero/HeroCard/WrapperPlayButton/WrapperPlayButton.tsx:124 | the client id is the user row's id in decimal, or `"undefined"` before user data has arrived |
| `WrapperPlayButton.PaymentContextFor` | app/ui/components/MovieDetails/Hero/HeroCard/WrapperPlayButton/WrapperPlayButton.tsx:99-125 | one generated id is both the transaction id and the order number; the currency is `'PEN'`; the amount reads back as the price |
| `WrapperPlayButton.OneOrderEverywhere` | app/ui/components/MovieDetails/Hero/HeroCard/WrapperPlayButton/WrapperPlayButton.tsx:111-180 | the token request, the gateway configuration and the settlement call carry the same transaction id and the same formatted amount |
| `WrapperPlayButton.TokenRequestFor` | app/ui/components/MovieDetails/Hero/HeroCard/WrapperPlayButton/WrapperPlayButton.tsx:127-134 | the token request carries the attempt's transaction id and order number, request source `'ECOMMERCE'`, the merchant code and public key, and the amount text |
| `WrapperPlayButton.ConfigFor` | app/ui/components/MovieDetails/Hero/HeroCard/WrapperPlayButton/WrapperPlayButton.tsx:173-180 | the gateway configuration is built from the attempt's transaction id, merchant code, order number, currency, amount and time, with all other parts fixed |
| `WrapperPlayButton.SettlementCallFor` | app/ui/components/MovieDetails/Hero/HeroCard/WrapperPlayButton/WrapperPlayButton.tsx:149-155 | `saveMoviePay` gets the attempt's transaction id, client id text, movie id text and amount text |
| `WrapperPlayButton.TokenOf` | app/ui/components/MovieDetails/Hero/HeroCard/WrapperPlayButton/WrapperPlayButton.tsx:135-143 | a token counts only when it is present and non-empty, and then it is the reply's own `response.token`; a reply without `response` has none |
| `WrapperPlayButton.ErrorOf` | app/ui/components/MovieDetails/Hero/HeroCard/WrapperPlayButton/WrapperPlayButton.tsx:135-141 | a reply without `response` yields the error `'NODE_API'`; otherwise the reply's own error |
| `WrapperPlayButton.SettlementOnlyAfterApproval` | app/ui/components/MovieDetails/Hero/HeroCard/WrapperPlayButton/WrapperPlayButton.tsx:143-155 | in every reachable log, a settlement call comes right after a `"00"` callback of the same attempt; before that the attempt loaded a form with a non-empty token; before that it sent its token request; all three carry one order and one amount |
| `WrapperPlayButton.SuccessOnlyAfterApproval` | app/ui/components/MovieDetails/Hero/HeroCard/WrapperPlayButton/WrapperPlayButton.tsx:147-161 | a settlement answered with code 1 was preceded by a `"00"` callback of the same attempt |
| `WrapperPlayButton.TokenReplyKeepsTrace` | app/ui/components/MovieDetails/Hero/HeroCard/WrapperPlayButton/WrapperPlayButton.tsx:134-201 | logging a token reply, and the form loaded with the attempt's own configuration when the token is non-empty, keeps the trace invariant and any earlier successful settlement |
| `WrapperPlayButton.CallbackKeepsTrace` | app/ui/components/MovieDetails/Hero/HeroCard/WrapperPlayButton/WrapperPlayButton.tsx:145-167 | logging a callback of an open form, followed by the attempt's settlement call exactly when the code is `"00"`, keeps the trace invariant and any earlier successful settlement |
| `WrapperPlayButton.PaymentFlow.constructor` | app/ui/components/MovieDetails/Hero/HeroCard/WrapperPlayButton/WrapperPlayButton.tsx:36-46 | the component starts not loading, not completed, with no user info and no movie list |
| `WrapperPlayButton.PaymentFlow.StartUserFetch` | app/ui/components/MovieDetails/Hero/HeroCard/WrapperPlayButton/WrapperPlayButton.tsx:51-54 | the fetch effect raises `isLoading` |
| `WrapperPlayButton.PaymentFlow.CompleteUserFetch` | app/ui/components/MovieDetails/Hero/HeroCard/WrapperPlayButton/WrapperPlayButton.tsx:56-78 | `userInfo` is set only from a present `data[0]`; `userMovieList` only when that row has `movies`; `isLoading` is false afterwards on success and on failure |
| `WrapperPlayButton.PaymentFlow.Press` | app/ui/components/MovieDetails/Hero/HeroCard/WrapperPlayButton/WrapperPlayButton.tsx:218-225 | the button sees the wrapper's `isLoading` and list; a payment starts only with a session, no spinner, and the slug absent from the fetched list |
| `WrapperPlayButton.PaymentFlow.HandlePay` | app/ui/components/MovieDetails/Hero/HeroCard/WrapperPlayButton/WrapperPlayButton.tsx:99-134 | a new attempt is created from the movie, `userInfo?.id` and currency `'PEN'`; exactly one token request with its order is sent; the flags are untouched |
| `WrapperPlayButton.PaymentFlow.ReceiveToken` | app/ui/components/MovieDetails/Hero/HeroCard/WrapperPlayButton/WrapperPlayButton.tsx:134-201 | with a token, `isLoading` goes up and the form is loaded with the attempt's own configuration; with none, no form is loaded and nothing but the log changes |
| `WrapperPlayButton.PaymentFlow.GatewayResponds` | app/ui/components/MovieDetails/Hero/HeroCard/WrapperPlayButton/WrapperPlayButton.tsx:145-167 | code `"00"` sends exactly one settlement call with the attempt's id, client, movie and amount; any other code sends none and clears both flags |
| `WrapperPlayButton.PaymentFlow.SettlementResponds` | app/ui/components/MovieDetails/Hero/HeroCard/WrapperPlayButton/WrapperPlayButton.tsx:155-161 | code 1 sets completion and lowers the spinner; any other code changes neither flag; completion is only ever true after a code-1 answer |
| `CreateUser.CreateUserBody` | app/lib/data/createUser.ts:5-10 | `auth_id` is the provider id, and name, email and image are copied; the provider user can be read back from the body |
| `CreateUser.RowsWithEmail` | app/lib/data/createUser.ts:32 | the lookup returns exactly the table rows with that email |
| `CreateUser.ValidateUserStep` | app/lib/data/createUser.ts:28-45 | a row is added iff the lookup succeeded, found no row for the email, and the create went through; a failed lookup or create changes nothing |
| `CreateUser.ValidateKeepsEmailsUnique` | app/lib/data/createUser.ts:32-41 | provisioning that does not overlap another call never puts a second row under an email |
| `CreateUser.ValidateProvidesRow` | app/lib/data/createUser.ts:33-40 | after provisioning whose requests went through, the email has a row |
| `CreateUser.ValidateIsIdempotent` | app/lib/data/createUser.ts:31-44 | after a run that added the row, or whose lookup and create went through, provisioning the same user again changes nothing; a second run adds a row only if the first added none, so two sequential runs add at most one row |
| `CreateUser.ExistenceKeyedByEmail` | app/lib/data/createUser.ts:32-33 | when a row with the email exists, the table is unchanged whatever the provider id |
| `CreateUser.UserStore.CreateUserDB` | app/lib/data/createUser.ts:4-26 | a request that goes through appends the body; a failed one is caught and changes nothing |
| `CreateUser.UserStore.ValidateUser` | app/lib/data/createUser.ts:28-45 | the table becomes `ValidateUserStep` of the old table, and unique emails stay unique (the lookup and the create taken as one step) |
| `Scenarios.ConcreteTexts` | app/ui/components/MovieDetails/Hero/HeroCard/WrapperPlayButton/WrapperPlayButton.tsx:122-125 | a price of 10 soles is sent as `"10.00"`; ids 42 and 7 are sent as `"42"` and `"7"` |

## Left out

- Rendering, CSS, the SVG markup, and React hooks. The flags are fields. Re-running the fetch effect (its dependency array) is left to the caller, which may call `StartUserFetch` and `CompleteUserFetch` at any time.
- Concurrency and timing. In the payment flow, each asynchronous answer is a method call that the caller may make at any time after its request. A request that never gets an answer is a method never called. A promise that rejects has no `.then` continuation and is modelled the same way.
- The gateway may call a loaded form's callback any number of times. The model lets it, and does not claim one callback per form.
- Formatting.NatToString: JavaScript writes an integer at or above 10^21 in exponent notation; the model always writes plain decimal digits.
- Formatting.ToFixed2: the price is a whole number of cents rather than a parsed decimal string. Floating-point rounding, `NaN` for a malformed price, and exponent notation at or above 10^21 are not modelled.
- HeroCard.RenderBanner: the displayed price is the API's text, passed in verbatim.
- HeroCard.SelectConfig: keys that the object inherits from its prototype (such as `"toString"`) are not modelled as table entries; for them the source would not fall back to the default entry.
- WrapperPlayButton.PaymentFlow.SettlementResponds: the settlement code is an optional integer. Loose equality also accepts strings like `"1"`, which is not modelled.
- WrapperPlayButton.PaymentFlow.GatewayResponds: the callback code is a string. Non-string codes are not modelled.
- WrapperPlayButton.PaymentFlow.ReceiveToken: an `authorization` that is itself `undefined` or `null`, or whose `response` is `null` (the destructuring default applies only to `undefined`), throws inside the continuation. This is treated as no answer. Whether the SDK builds the form is an input. When it throws, `isLoading` stays true, as in the code.
- WrapperPlayButton.PaymentFlow.Press: the precondition assumes the purchased list has been fetched before a signed-in press on a paid title. Reading `.length` of an undefined list (a crash) is not modelled.
- CreateUser.RowsWithEmail: the backend's email filter is not part of this model; the lookup is assumed to return exactly the rows whose email is equal, character for character, to the one asked for.
- The internals of `getTokenSession`, `getDataOrderDynamic`, `saveMoviePay`, `fetchUserData`, the Izipay SDK and the user backend are not part of this model. They are foreign code; their answers are inputs.
- CreateUser.UserStore.ValidateUser: `validateUser` awaits the email lookup and then, separately, the create. The model treats the lookup and the create as one atomic step. Two overlapping calls for one email (the sign-in page's effect can run more than once) can each see no row and each create one. The uniqueness `ensures` holds only for calls that do not overlap.
- CreateUser.ValidateKeepsEmailsUnique: states uniqueness for one atomic lookup-and-create step, so it covers only calls to `validateUser` that do not overlap.
- CreateUser.UserStore.CreateUserDB: a request counts as either applied or not. A create that the backend stores but whose JSON reply fails to parse is not modelled.
- The sign-in page, the session provider, the route table, the home-page slug list and the terms-of-service page are not part of this model. They are display code or constants; the sign-in page only calls `validateUser`. The 30-day and 48-hour rental window appears only as legal text.
