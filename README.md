# Mamata Nepal — a Dafny model of the shop, payment and community core

Mamata Nepal is a pregnancy and motherhood web application: a React front
end (shop, checkout, discussions, guides, blogs) over a hosted database and
authentication backend, plus two copies of a small payment-initiation
endpoint for the eSewa gateway (a serverless function and an Express route).

This project models that core in Dafny and proves properties of the model:

- **eSewa signing** (`esewa.dfy`): the signature message, the eleven form
  fields posted to the gateway, the transaction UUID
  `<timestamp>-<suffix>`, and a gateway predicate. The predicate holds when
  the signature covers the fields that `signed_field_names` names, in order.
  HMAC-SHA256/Base64 is a parameter `sign`.
- **Payment initiation** (`initiate_payment.dfy`, `express_server.dfy`): the
  serverless handler with its full status taxonomy (405 / 400 / 500 / 200).
  The Express route appears twice, as written and corrected (see Findings).
- **Checkout** (`checkout.dfy`):
  - the amount as `toFixed(2)` over integer paisa, with a parse back;
  - the request body and the hidden form built from the response;
  - the development mock form;
  - the checkout page as a class: shipping form, steps, buttons, the eSewa
    start-up and the other-method path;
  - an end-to-end lemma: the checkout's request, answered by the handler,
    yields a form the gateway accepts, for the cart total and the generated
    transaction id.
- **Authentication** (`auth_context.dfy`, `private_route.dfy`, `login.dfy`):
  - the auth provider as a class with its local-storage cache;
  - the auth-state event reducer;
  - the route guard;
  - profile creation at sign-in.
- **Pages** (`discussions.dfy`, `post_details.dfy`, `product_listing.dfy`,
  `blogs.dfy`, `pregnancy_guide.dfy`):
  - paged post feed, liked map, optimistic likes with revert, post creation;
  - like button and comments of one post;
  - catalogue filtering and add-to-cart / buy-now;
  - word truncation;
  - trimester week grid.
- **Shell** (`i18n.dfy`, `layout.dfy`, `seo.dfy`):
  - language detection and the two translation tables;
  - the layout's language toggle and sidebar;
  - the SEO head tags.
- **Helpers** (`strings.dfy`, `wrappers.dfy`): JavaScript `split`/`join` on
  one character, `trim` over the ECMAScript whitespace set, decimal
  rendering and parsing of naturals, JavaScript truthiness of optional
  strings, and `Option`.

How the source is represented:

- Stateful React components become classes. Each handler is a `method`
  with `modifies this` whose `ensures` gives the complete new state.
- Pure logic is kept in functions beside the classes, and the lemmas are
  about those functions.
- Everything the code gets from outside is a parameter: backend answers,
  `Date.now()`, generated ids, the development flag, the window origin,
  stored values and fetch outcomes.
- Money is integer paisa: a total of `n` paisa is the price `n / 100` the
  source holds as a JavaScript number.

## Model

| member | source | states |
|---|---|---|
| Esewa.GenerateSignature | netlify/functions/initiate-payment.js:4-9 | a signature exists exactly when the secret key is set (an unset key makes the HMAC call throw), and it is `sign(key, message)` |
| Esewa.SignedFieldNamesSplit | netlify/functions/initiate-payment.js:51 | the posted `signed_field_names` value splits on commas into exactly `total_amount`, `transaction_uuid`, `product_code`, in that order |
| Esewa.SignatureMessageIsCanonical | netlify/functions/initiate-payment.js:33 | the signed message is the comma join of `name=value` for the signed fields, in the order `signed_field_names` lists them |
| Esewa.PayloadSelfConsistent | netlify/functions/initiate-payment.js:33-52 | a form built with the signature of its own amount, uuid and product code is accepted by a gateway with the same secret: the signature recomputed from the posted fields named in `signed_field_names` matches the posted signature |
| Esewa.Lookup | netlify/functions/initiate-payment.js:41-53 | a field is found exactly when some posted pair has that name, and the value found is one posted under that name |
| Esewa.TransactionUuidRoundTrip | netlify/functions/initiate-payment.js:31 | splitting the UUID at its first dash gives back the decimal timestamp and the caller's suffix, and the timestamp parses back to `Date.now()` |
| Esewa.TransactionUuidEndsWithSuffix | netlify/functions/initiate-payment.js:31 | the UUID ends in `-` followed by the transaction id |
| InitiatePayment.Handler | netlify/functions/initiate-payment.js:11-71 | 405 exactly for non-POST; 400 exactly for a missing field ("Missing required fields") or a complete non-eSewa request ("Unsupported payment method"); 200 exactly for a complete eSewa request with the key set, with every payload field given; otherwise 500 "Internal server error" |
| InitiatePayment.HandlerPayloadVerifies | netlify/functions/initiate-payment.js:30-56 | every 200 payload is accepted by the gateway holding the same secret |
| InitiatePayment.HandlerUuidCarriesTransactionId | netlify/functions/initiate-payment.js:31-45 | the posted `transaction_uuid` splits back into `Date.now()` and the caller's transaction id |
| InitiatePayment.ProductNameNotSigned | netlify/functions/initiate-payment.js:21-55 | the product name is required but never used: two requests differing only in a present product name get the same response |
| ExpressServer.RouteAsWritten | server.js:23-63 | as written: 400 "Missing required fields" exactly for a missing field, 500 "Internal server error" for every complete eSewa request, and no response at all for a complete request of another method |
| ExpressServer.RouteAsWrittenNeverPays | server.js:31-62 | as written, no request ever gets a 200 payment payload |
| ExpressServer.RouteAsWrittenRejectsValidEsewa | server.js:34-62 | a well-formed eSewa request (amount "100.00", transaction "abc123") gets 500 |
| ExpressServer.RouteAsWrittenLeavesOtherMethodsHanging | server.js:31-58 | a complete request for another method gets no response |
| ExpressServer.Route | server.js:23-63 | corrected route: 200 exactly for a complete eSewa request with the key set, payload fields as listed with the UUID suffix a fresh uuid; a missing field (the transaction id included) gets 400 "Missing required fields", a complete request of another method 400 "Unsupported payment method", and an unset key 500 "Internal server error" |
| ExpressServer.RouteIgnoresTransactionId | server.js:25-32 | the caller's transaction id is required but does not affect the response |
| ExpressServer.RouteAgreesWithServerless | server.js:27-62 | the corrected route equals the serverless handler given the fresh uuid as transaction id and the front-end URL as site URL |
| ExpressServer.RoutePayloadVerifies | server.js:35-53 | every 200 payload of the corrected route is accepted by the gateway |
| Checkout.FormatCents | src/pages/Checkout.tsx:101 | `toFixed(2)` of a paisa total: digits, a dot, exactly two digits |
| Checkout.FormatCentsRoundTrip | src/pages/Checkout.tsx:101 | parsing the rendered amount gives the paisa total back |
| Checkout.EsewaRequest | src/pages/Checkout.tsx:100-105 | the body sent to the initiation function: its amount parses back to the cart total, product "MAMATA", the generated transaction id, method "esewa" |
| Checkout.FormToSubmit | src/pages/Checkout.tsx:108-132 | a form is submitted exactly when the response is 2xx, its JSON parses and `success` is truthy; it posts to the returned URL with the returned fields |
| Checkout.HandlerErrorIsFailurePath | src/pages/Checkout.tsx:108-138 | any error answer of the handler leads to the failure path, never to a form |
| Checkout.CheckoutRequestIsPaid | src/pages/Checkout.tsx:95-129 | the checkout's request, answered by the serverless handler with the key set, is a 200 whose form the gateway accepts, with `total_amount` the rendered cart total and a UUID carrying the generated id |
| Checkout.BuildHiddenForm | src/pages/Checkout.tsx:116-126 | the loop builds one hidden input per entry, and the pairs the form posts are exactly the entries, in order |
| Checkout.MockTotalIsAmount | src/pages/Checkout.tsx:63-68 | the development mock posts the same rendered amount as `amt` and `tAmt`, with zero charges |
| Checkout.MockUsesTestMerchant | src/pages/Checkout.tsx:70 | the development mock posts the test merchant code "EPAYTEST" |
| Checkout.CheckoutPage.constructor | src/pages/Checkout.tsx:8-22 | the cart from the cart context, the initial shipping form (country "Nepal", payment method "credit"), step 1, not processing |
| Checkout.CheckoutPage.ChangeInput | src/pages/Checkout.tsx:24-27 | the named field takes the value, every other field is unchanged |
| Checkout.CheckoutPage.ClickBack | src/pages/Checkout.tsx:389-396 | back to step 1 unless a payment is being started |
| Checkout.CheckoutPage.HandleSubmit | src/pages/Checkout.tsx:29-44 | step 1 advances to step 2 and nothing else; on step 2 eSewa starts a payment, any other method alerts, clears the cart and goes to the confirmation page |
| Checkout.CheckoutPage.ClickPlaceOrder | src/pages/Checkout.tsx:397-410 | while processing the button is disabled and nothing changes; otherwise the step-2 submit, with the complete new state of each branch |
| Checkout.CheckoutPage.InitiateEsewaPayment | src/pages/Checkout.tsx:46-139 | the pending order is stored first; in development the mock form is submitted without a request; otherwise exactly one request, then either the returned form is submitted (page stays busy) or an alert is shown and the page is usable again |
| AuthContext.Reduce | src/context/AuthContext.tsx:96-108 | sign-in and token refresh make the state exactly the new session and that session's user, sign-out clears both, other events change nothing; a user never appears without a session |
| AuthContext.ReduceIdempotent | src/context/AuthContext.tsx:96-108 | repeating an event with the same session changes nothing more |
| AuthContext.ReduceForgetsPast | src/context/AuthContext.tsx:98-103 | after a sign-in, refresh or sign-out the state does not depend on the state before |
| AuthContext.SignedOutStaysOut | src/context/AuthContext.tsx:96-108 | after a sign-out, no sequence of events other than sign-in or refresh brings a user back |
| AuthContext.ReduceAllKeeps | src/context/AuthContext.tsx:96-108 | such events keep a signed-out state signed out, step by step |
| AuthContext.AuthProvider.constructor | src/context/AuthContext.tsx:44-60 | user and session come from storage; loading is on exactly when no user is cached |
| AuthContext.AuthProvider.SyncCache | src/context/AuthContext.tsx:63-77 | each storage entry holds the current value or is removed; the state is untouched |
| AuthContext.AuthProvider.FetchSession | src/context/AuthContext.tsx:80-91 | runs only when user or session is missing; adopts a fetched session and its user; ends with loading off and the cache in step |
| AuthContext.AuthProvider.OnAuthStateChange | src/context/AuthContext.tsx:63-109 | the new user and session are `Reduce` of the old ones; the cache stays in step; a sign-out leaves both entries removed |
| AuthContext.Mount | src/context/AuthContext.tsx:44-93 | after mounting, loading is off and the cache is in step; without a fetched session, or with both cached, the cached state is kept |
| PrivateRoute.CheckAuth | src/components/PrivateRoute.tsx:18-21 | authenticated exactly when the backend returned a user |
| PrivateRoute.Render | src/components/PrivateRoute.tsx:10-33 | the placeholder exactly while the check is pending; the page exactly when auth is not required or the user is signed in; otherwise a replacing redirect to `/login` carrying the location |
| PrivateRoute.GuardedByDefault | src/components/PrivateRoute.tsx:10-33 | without the prop, a guest is redirected to the login page |
| PrivateRoute.RedirectIff | src/components/PrivateRoute.tsx:18-33 | once answered, a redirect happens exactly for a guest on a page that requires auth; a signed-in user always sees the page |
| Discussions.PageRange | src/pages/Discussions.tsx:20-39 | page `p` queries rows `10p` through `10p + 9` |
| Discussions.PagesTile | src/pages/Discussions.tsx:38-39 | consecutive pages are adjacent and never overlap |
| Discussions.Format | src/pages/Discussions.tsx:74-80 | a formatted post keeps the row's id, title, content, date, anonymity, author and author name, and counts its likes and comments; it is liked exactly when one of its like rows is the caller's |
| Discussions.FormatPostsAppend | src/pages/Discussions.tsx:74-92 | formatting two batches in turn is formatting them together |
| Discussions.LikedMapKeys | src/pages/Discussions.tsx:83-86 | the liked map's keys are exactly the fetched rows' ids |
| Discussions.LikedMapAgrees | src/pages/Discussions.tsx:79-84 | with distinct ids, each row's entry equals its formatted post's liked flag |
| Discussions.BuildLikedMap | src/pages/Discussions.tsx:83-86 | the loop computes the `reduce`'s liked map |
| Discussions.FetchStep | src/pages/Discussions.tsx:71-95 | as written: on rows the liked map is replaced, page 0 replaces the posts, later pages append, `hasMore` exactly when the page was full; an error or no data changes nothing |
| Discussions.FetchStepForgetsEarlierLikes | src/pages/Discussions.tsx:83-92 | as written, after page 1 loads, a post of page 0 that the user liked is still shown but has no liked flag |
| Discussions.FetchStepMerged | src/pages/Discussions.tsx:83-94 | corrected fetch: same posts and `hasMore`, and a later page adds its flags to those already shown |
| Discussions.MergedFetchKeepsLikesShown | src/pages/Discussions.tsx:79-93 | with distinct ids, the corrected fetch keeps every shown post's flag equal to the post's own liked flag |
| Discussions.AppendPageKeepsLikesShown | src/pages/Discussions.tsx:83-92 | appending a page together with its flags keeps every shown flag right |
| Discussions.TwoPagesConcatenate | src/pages/Discussions.tsx:89-93 | loading page 0 then page 1 shows both pages' posts in order |
| Discussions.AdjustLikes | src/pages/Discussions.tsx:164-172 | only posts with that id change, and only their like count, by the given amount |
| Discussions.AdjustLikesUndo | src/pages/Discussions.tsx:169-209 | the revert's adjustment undoes the optimistic one |
| Discussions.LikeThenRevertIsIdentity | src/pages/Discussions.tsx:160-213 | an optimistic like followed by its revert leaves every post as it was and every flag reading as before, including a post missing from the liked map (the revert then adds an undefined entry); a map that already had the post is restored exactly |
| Discussions.DiscussionsPage.constructor | src/pages/Discussions.tsx:24-33 | empty feed, page 0, more pages expected, not loading, empty modal |
| Discussions.DiscussionsPage.FetchPosts | src/pages/Discussions.tsx:35-101 | the feed becomes `FetchStep` of the old feed; the page's row range is queried; loading ends off |
| Discussions.DiscussionsPage.HandleScroll | src/pages/Discussions.tsx:103-112 | at the bottom, with more pages and not loading, the page advances by one; nothing else changes |
| Discussions.DiscussionsPage.HandleLike | src/pages/Discussions.tsx:156-215 | signed out, nothing changes and nothing is sent; signed in, one request is sent, deleting the caller's like exactly when the post was shown as liked and inserting one otherwise; on backend success the flag flips and that post's count moves by one in the same direction; on failure posts and flags end as they were |
| Discussions.DiscussionsPage.CreatePost | src/pages/Discussions.tsx:123-154 | only with a non-blank title and content and a signed-in user is the trimmed post inserted; on success the modal closes and resets, page 0 is refetched and loading ends off; a blank field, a guest or a refused insert leaves loading and the feed as they were |
| Discussions.DiscussionsPage.CloseAndReload | src/pages/Discussions.tsx:149-153 | after a successful insert the modal closes, the form resets, the feed becomes page 0 as refetched and loading ends off |
| PostDetails.InitialLikeCount | src/pages/PostDetails.tsx:68 | the first count row of the `likes` aggregate, or 0 when it is missing or empty |
| PostDetails.InitialIsLiked | src/pages/PostDetails.tsx:69 | liked exactly when `user_has_liked` returned at least one row, whoever's like it is |
| PostDetails.PostDetailsPage.constructor | src/pages/PostDetails.tsx:31-38 | not loaded, no comments, not liked, count 0 |
| PostDetails.PostDetailsPage.FetchPost | src/pages/PostDetails.tsx:45-70 | an error changes nothing; a row sets the count and the flag |
| PostDetails.PostDetailsPage.FetchComments | src/pages/PostDetails.tsx:72-90 | an error changes nothing; null data shows no comments |
| PostDetails.PostDetailsPage.HandleLike | src/pages/PostDetails.tsx:117-155 | signed out, nothing is sent; signed in, one request is sent, deleting the caller's like exactly when the page shows it liked and inserting one otherwise; signed out or refused, the flag and count do not change; otherwise the flag flips and the count moves by one the same way; the count minus the page's own like is unchanged |
| PostDetails.PostDetailsPage.HandleAddComment | src/pages/PostDetails.tsx:92-115 | a blank comment or a guest changes nothing; otherwise the trimmed text is inserted, and on success the box clears and comments reload |
| ProductListing.OfCategory | src/pages/ProductListing.tsx:105 | the filter keeps exactly the products of the category |
| ProductListing.OfCategoryAppend | src/pages/ProductListing.tsx:105 | filtering keeps catalogue order (it distributes over concatenation) |
| ProductListing.OfCategoryAll | src/pages/ProductListing.tsx:105 | a list wholly in the category is kept whole |
| ProductListing.Listed | src/pages/ProductListing.tsx:103-107 | a truthy category lists exactly its products; otherwise the whole catalogue |
| ProductListing.LeadingBlockListed | src/pages/ProductListing.tsx:105 | when a category's products all precede the others, the filter returns exactly them |
| ProductListing.MaternityListing | src/pages/ProductListing.tsx:38-107 | the maternity page lists the dress then the belt, and nothing else |
| ProductListing.CategoryTitle | src/pages/ProductListing.tsx:161-170 | "All Products" exactly for a missing or unknown category |
| ProductListing.CategoryTitlesDistinct | src/pages/ProductListing.tsx:161-170 | different known categories have different titles |
| ProductListing.CartPrice | src/pages/ProductListing.tsx:133-154 | the discount price when present and non-zero, else the list price |
| ProductListing.CatalogueDiscountsLower | src/pages/ProductListing.tsx:38-133 | every catalogue product goes in the cart at no more than its list price |
| ProductListing.ProductListingPage.constructor | src/pages/ProductListing.tsx:22-26 | empty list, loading, the parked items from storage |
| ProductListing.ProductListingPage.FetchProducts | src/pages/ProductListing.tsx:31-114 | the list becomes `Listed` of the category, loading off, nothing else changes |
| ProductListing.ProductListingPage.HandleAddToCart | src/pages/ProductListing.tsx:119-138 | a guest's product is parked and the guest sent to login with action "addToCart"; a signed-in user's cart gets one unit at the cart price, with an alert |
| ProductListing.ProductListingPage.HandleBuyNow | src/pages/ProductListing.tsx:140-159 | as add-to-cart with action "buyNow"; a signed-in user goes to checkout after the line is added |
| Blogs.TruncateContent | src/pages/Blogs.tsx:21-28 | truncated exactly when there are more space-separated words than the limit; then the first `limit` words joined by spaces plus "...", else the content unchanged |
| Blogs.TruncatedShowsLeadingWords | src/pages/Blogs.tsx:22-25 | a truncated text is a proper prefix of the content, cut at a space, whose words are the leading words, followed by "..." |
| Blogs.DefaultLimitShowsOnlyEllipsis | src/pages/Blogs.tsx:21-25 | with the default limit 0 any content shows only "..." and is marked truncated |
| Blogs.ShowReadMore | src/pages/Blogs.tsx:90-128 | "Read more" shows exactly when the post has more than 50 words |
| Blogs.AuthorName | src/pages/Blogs.tsx:132 | the credit if truthy, else the username if truthy, else "Anonymous"; never empty |
| PregnancyGuide.Range | src/pages/PregnancyGuide.tsx:16-18 | `Array.from({length}, (_, i) => i + first)` |
| PregnancyGuide.WeeksShape | src/pages/PregnancyGuide.tsx:15-19 | trimesters have 13, 14 and 15 consecutive weeks starting at 1, 14 and 28 |
| PregnancyGuide.WeeksPartition | src/pages/PregnancyGuide.tsx:15-19 | every week 1-42 is in exactly one trimester, and no other week is in any |
| PregnancyGuide.Cards | src/pages/PregnancyGuide.tsx:79-89 | one card per week of the trimester, in order, with a guide exactly when the week has one |
| PregnancyGuide.GuidesOnlyInFirstTrimester | src/pages/PregnancyGuide.tsx:21-89 | guides exist for weeks 1, 4 and 8 only, so the second and third trimesters show none |
| I18n.GetUserLanguage | src/i18n/index.ts:8-27 | always "en" or "ne": a saved supported choice wins, else a browser language starting with "ne" gives "ne", else "en" |
| I18n.UnsupportedPreferenceIgnored | src/i18n/index.ts:12 | an unsupported saved value is treated as no saved value |
| I18n.Find | src/i18n/index.ts:29-74 | a key is found exactly when the table has it, with that table's text |
| I18n.Translate | src/i18n/index.ts:29-74 | a known key gives its text in the language's table; an unknown key shows itself |
| I18n.TablesHaveSameKeys | src/i18n/index.ts:29-74 | English and Nepali tables list the same 18 keys in the same order |
| I18n.TranslatedInBoth | src/i18n/index.ts:29-74 | a key is translated in one language exactly when it is in the other |
| Layout.ToggledLanguage | src/components/Layout.tsx:62 | "ne" exactly from "en"; always a supported language |
| Layout.ToggleTwiceRestores | src/components/Layout.tsx:62 | toggling twice restores a supported language |
| Layout.ToggleFromUnsupported | src/components/Layout.tsx:62 | from any other language the toggle goes to "en", then "ne" |
| Layout.LayoutShell.constructor | src/components/Layout.tsx:10-13 | starts in the detected language with both panels closed |
| Layout.LayoutShell.ApplyDefaultLanguage | src/components/Layout.tsx:21-27 | with no saved language, English is forced and saved; otherwise nothing changes |
| Layout.LayoutShell.ToggleLanguage | src/components/Layout.tsx:61-67 | the language changes to its toggle and is saved; the profile menu closes |
| Layout.LayoutShell.Navigate | src/components/Layout.tsx:34-71 | exactly the new path is active; the sidebar closes when the path changes |
| Layout.LayoutShell.SetSidebarOpen | src/components/Layout.tsx:185-255 | the sidebar opens or closes as asked, nothing else changes |
| Layout.MountLayout | src/components/Layout.tsx:21-27 | with nothing saved the page ends in English, whatever the browser language; a saved supported language is kept |
| Seo.SiteTitle | src/components/SEO.tsx:23-25 | the default title for an empty title, else the title followed by the site-name suffix |
| Seo.SiteTitleRecoversTitle | src/components/SEO.tsx:23-25 | removing the suffix gives the title back |
| Seo.CurrentUrl | src/components/SEO.tsx:27-29 | always starts with the site origin |
| Seo.CurrentUrlRecoversPath | src/components/SEO.tsx:27-29 | dropping the origin gives the path back |
| Seo.ImageUrl | src/components/SEO.tsx:44-51 | an image starting with "http" is kept, any other is prefixed with the origin; the result starts with "http" |
| Seo.ImageUrlIdempotent | src/components/SEO.tsx:44-51 | making an image URL absolute twice is doing it once |
| Seo.Render | src/components/SEO.tsx:14-62 | all title tags carry the site title, all URL tags the current URL, both images the absolute image; keywords appear exactly when non-empty; the Twitter card is always `summary_large_image` |
| Seo.DefaultHead | src/components/SEO.tsx:14-29 | with no props: the default title, the origin as canonical URL, the hero image, the default keywords |
| Login.Username | src/pages/Login.tsx:31 | the username inserted is never empty, whatever the e-mail and the id |
| Login.UsernameShape | src/pages/Login.tsx:31 | for an e-mail with a non-empty local part, the username is that part: a prefix ending at the first "@" (or the whole e-mail) with no "@"; otherwise `user_` and at most the id's first 8 characters |
| Login.LoginPage.OnAuthStateChange | src/pages/Login.tsx:13-42 | on sign-in, user update or refresh with a user and no profile, exactly one profile is inserted; only errors other than unique violation "23505" are logged |
| Strings.ParseNatToString | netlify/functions/initiate-payment.js:31 | the decimal rendering of a timestamp parses back to it |
| Strings.JoinSplit | src/pages/Blogs.tsx:22-26 | joining the pieces of a split on a character gives the string back |
| Strings.SplitJoin | netlify/functions/initiate-payment.js:51 | splitting a join of separator-free pieces gives the pieces back |
| Strings.FirstPieceIsPrefix | src/pages/Login.tsx:31 | the first piece of a split is a prefix ending before the first separator |
| Strings.TrimEmptyIff | src/pages/Discussions.tsx:125 | a string trims to empty exactly when it is all whitespace |
| Strings.TrimIdempotent | src/pages/Discussions.tsx:137-138 | trimming twice is trimming once |

## Left out

- HMAC-SHA256 and Base64 are not modelled: the signer is a parameter. What is proved is that the posted fields and the message agree.
- JSON serialisation and parsing are not modelled. A body that fails to parse is `None`. Request fields are optional strings, and non-string JSON values are not modelled.
- Environment variables are plain strings in a configuration record. An unset merchant code or URL, which JavaScript would print as "undefined", is not distinguished from a set one. An unset secret key is modelled because the HMAC call throws on it.
- Money is integer paisa. The source's floating-point prices and the rounding of `toFixed` on non-representable values are not modelled.
- Asynchrony is not modelled. Each handler runs to completion with the backend's answers as inputs, so interleavings of awaits and stale React closures are not captured.
- The cart context (`src/context/CartContext.tsx`) is not part of this model. `clearCart` is modelled as emptying the items and zeroing the total, and `addToCart` as appending a line.
- The DOM is not modelled: forms are values, and `form.submit()` appends to a list of submitted forms. Alerts are modelled as a list of strings; the scroll position arithmetic and `window.scrollTo` are not modelled. Whether the page is scrolled to the bottom is an input of `Discussions.DiscussionsPage.HandleScroll`.
- Discussions.DiscussionsPage.HandleScroll: advancing the page does not itself fetch. The fetch the page change triggers is the separate call `FetchPosts(currentPage, …)`.
- Blogs.TruncateContent: the word limit is a natural number. The negative-limit behaviour of `slice` is not modelled, because the source only passes 0 or 50.
- Layout.LayoutShell: the `lang` attribute of the document follows the language, so the language field stands for it. Body scroll locking, the profile menu contents and logout are not modelled.
- The authentication forms of `src/pages/Login.tsx` (sign in, sign up, OAuth) are calls into the backend SDK and are not modelled. Only the profile-creation listener is.
- The local-storage cache of `AuthContext` stores values. Serialising and then parsing a user or a session is assumed to give it back unchanged.
- Translation lookup follows i18next's default behaviour as this model states it: a missing key is shown as itself. The library itself is not part of this model.
- PostDetails.InitialIsLiked: the post query attaches its `author_id` filter to the `likes` count embedding, not to `user_has_liked` (src/pages/PostDetails.tsx:55-59), and the client never checks whose like a row is. The model states what the client computes from the rows it is given; that those rows are the caller's own likes is left to the backend and not modelled. The same holds for the count of PostDetails.InitialLikeCount and the flag PostDetails.PostDetailsPage.HandleLike starts from.
- Seo.Render: the optional `schema` property and its JSON-LD script tag (src/components/SEO.tsx:57-61) are not modelled, because JSON serialisation of arbitrary objects is not modelled.
- Rendering and styling of every page, and the pages outside this core (home, resources, shop, blog detail, content creation), are not modelled.

## Findings

| source | as written | input that shows it | evidently intended | confidence | as-written member | corrected member |
|---|---|---|---|---|---|---|
| server.js:36 | calls `generateEsewaSignature`, which `server.js` neither defines nor imports; the ReferenceError is caught and answered with 500 | any complete eSewa request, e.g. amount "100.00", product "MAMATA", transaction "abc123", method "esewa" | sign with HMAC-SHA256/Base64 as the serverless copy does and return the payload | high, not executed | ExpressServer.RouteAsWritten (shown by ExpressServer.RouteAsWrittenRejectsValidEsewa) | ExpressServer.Route (with ExpressServer.RoutePayloadVerifies and ExpressServer.RouteAgreesWithServerless) |
| server.js:56-58 | a complete request whose method is not eSewa falls through the `try` without writing a response, so the client waits until it times out | amount "100.00", product "MAMATA", transaction "abc123", method "card" | answer 400 "Unsupported payment method" as the serverless copy does | medium, not executed | ExpressServer.RouteAsWrittenLeavesOtherMethodsHanging | ExpressServer.Route |
| src/pages/Discussions.tsx:87 | each page fetch replaces `likedPosts` with the new page's map, although later pages append their posts to those already shown | user "u" liked post "a" on page 0; page 1 loads post "b"; post "a" is still shown but `likedPosts["a"]` is undefined, so its button reads as not liked and a click inserts a second like | merge the new page's flags into the existing map on pages after the first | medium, not executed | Discussions.FetchStep (shown by Discussions.FetchStepForgetsEarlierLikes) | Discussions.FetchStepMerged (with Discussions.MergedFetchKeepsLikesShown) |
