# Personal site: contact, analytics, vCard and conference banner logic

A Dafny model of the parts of the personal site that hold rules rather than layout:

- **`POST /api/contact`**, in the `Contact` module (contact.dfy). It validates a submission: a name is required, plus one of email, phone, twitter or linkedin. It builds the Notion property map one field at a time. For a photo, it runs the three-step selfie upload: declare the upload, send the bytes, reference the uploaded file. It then chooses the status and response. The upload is a forward-only state machine driven by `UploadSelfie`. The network answers come from `Services`, a record of functions of each call's arguments. Every outbound call is recorded in a trace of `Notion.Call`s.
- **`POST` and `GET /api/analytics`**, in the `Analytics` module (analytics.dfy). These are pure functions covering:
  - the event record, with the caller's metadata spread over the context fields;
  - the persisted page, with its 'Unknown'/null defaults;
  - a write whose failure is ignored.
- **`generateVCard`**, in the `VCard` module (vcard.dfy). It is the vCard 3.0 template of RFC 2426, followed by `split('\n')`, the non-blank filter and `join('\n')`. Those three are modelled, together with JavaScript truthiness and `trim()`, in the `Js` module (js.dfy).
- **The conference banner component**, in the `Banner` module (banner.dfy). A class holds the component's state fields, the session "dismissed" flag and the pending 3-second timer. Its methods are the mount effect, the timer, dismiss, reopen, opening and closing the exchange form, and the two halves of the form submission. `CurrentView` is the render-branch choice. `Validate` and `Payload` are the client-side checks and the request body.

`Http` (http.dfy) holds the JSON responses, and `Notion` (notion.dfy) holds the property values and outbound calls.

Three behaviours of the code are easy to miss; the model follows the code:

- **The banner form counts any resolved request as submitted.** The selfie form checks `response.ok` and treats a non-ok answer as a failure (src/components/SelfieExchange.tsx:72-78). The banner form marks itself submitted whenever `fetch` resolves, whatever the status (src/components/ConferenceBanner.tsx:108-115). `Banner.ConferenceBanner.FinishSubmit` models the banner: only a thrown error is a failure.
- **A failed upload never appends to an earlier note.** The handler's failure path appends to an existing `Note` (src/app/api/contact/route.ts:156-157), but the property map built at lines 50-85 never sets `Note`, so that branch cannot run. `Contact.AttachSelfie` therefore proves the note is always exactly "Selfie upload failed". `Contact.FailureNote` models the append branch itself.
- **Metadata overrides everything in the event except the persisted action.** Caller metadata overrides the event's context fields, including `timestamp` and `ip`. The persisted `Action` is still read from the request, not the event. `Analytics.PersistedFromRequest` states both.

## Model

| member | source | states |
|---|---|---|
| Js.Split | src/lib/utils.ts:26 | `split('\n')` gives at least one piece and no piece holds a newline |
| Js.NonBlank | src/lib/utils.ts:26 | `filter(line => line.trim())` keeps no blank line and never lengthens the list |
| Js.Normalize | src/lib/utils.ts:26 | `split('\n').filter(line => line.trim()).join('\n')` as one function; its lines and idempotence are stated by `Js.NormalizedLines` and `Js.NormalizeIdempotent` |
| Js.JoinSplit | src/lib/utils.ts:26 | joining the pieces of a split with '\n' gives the string back |
| Js.NormalizedLines | src/lib/utils.ts:26 | the lines of split/filter/join output are exactly the non-blank pieces of the input |
| Js.NormalizeIdempotent | src/lib/utils.ts:26 | applying split/filter/join twice is the same as once |
| VCard.FramedNormalize | src/lib/utils.ts:26 | clean lines at both ends survive normalization unchanged; the lines between contribute their non-blank pieces |
| VCard.GenerateVCard | src/lib/utils.ts:16-26 | the nine template lines joined by newlines, then normalized; what the output holds is stated by `VCard.Frame`, `VCard.ExactLines`, `VCard.PropertyOrder` and `VCard.OptionalLinePresence` |
| VCard.LinesArePieces | src/lib/utils.ts:16-26 | for every card, the output lines are BEGIN, VERSION, the non-blank pieces of the six middle template lines, END |
| VCard.Frame | src/lib/utils.ts:16-26 | for every card, the first line is BEGIN:VCARD, the second VERSION:3.0, the last END:VCARD; at least three lines; none blank |
| VCard.NamedLineNotBlank | src/lib/utils.ts:18-19 | a `NAME:value` line is never blank, so FN and EMAIL survive the filter even with empty values |
| VCard.OptionalLineKept | src/lib/utils.ts:20-23 | an optional line survives the filter exactly when its field is set |
| VCard.Idempotent | src/lib/utils.ts:26 | running split/filter/join over the output again leaves it unchanged |
| VCard.ExactLines | src/lib/utils.ts:16-26 | when no field holds a line break, the output is exactly BEGIN, VERSION, FN, EMAIL, each of TEL/ORG/TITLE/URL whose field is set, END |
| VCard.SevenLines | src/lib/utils.ts:16-26 | a card without phone and company, with title and website, gives exactly seven lines: BEGIN, VERSION, FN, EMAIL, TITLE, URL, END |
| VCard.PropertyOrder | src/lib/utils.ts:16-24 | the property names of the output follow the fixed order BEGIN, VERSION, FN, EMAIL, TEL, ORG, TITLE, URL, END, with exactly the unset optional ones left out |
| VCard.OptionalLinePresence | src/lib/utils.ts:18-23 | FN and EMAIL always appear; TEL, ORG, TITLE, URL appear exactly when phone, company, title, website are set |
| Contact.WordPrefixLength | src/app/api/contact/route.ts:91 | `\w+` at the front: the result is the longest prefix made of word characters |
| Contact.StripDataUrlHeader | src/app/api/contact/route.ts:91 | the result is a suffix of the photo string, never longer; `Contact.StripRemovesHeader` and `Contact.StripOnlyHeader` say exactly which suffix |
| Contact.StripRemovesHeader | src/app/api/contact/route.ts:91 | a leading `data:image/<word>;base64,` header is removed and the rest returned intact |
| Contact.StripOnlyHeader | src/app/api/contact/route.ts:91 | stripping either leaves the string unchanged or removes exactly one such header from its front |
| Contact.DashColonsAndDots | src/app/api/contact/route.ts:95 | `replace(/[:.]/g, '-')`: same length, each ':' and '.' becomes '-', every other character kept |
| Contact.SelfieFilename | src/app/api/contact/route.ts:95-96 | the filename is "selfie-" + the dashed time + ".png": no ':' anywhere and no '.' before the extension |
| Contact.UploadResult | src/app/api/contact/route.ts:88-150 | a file is referenced only for a string photo, under the selfie filename, with the id the declaration returned; non-string photos fail at `.replace` |
| Contact.UploadCalls | src/app/api/contact/route.ts:92-131 | a string photo makes one or two calls and any other photo none; there are two exactly when the declaration succeeds |
| Contact.UploadSelfie | src/app/api/contact/route.ts:88-150 | the upload state ends Referenced or Failed; Referenced exactly when the protocol succeeds, referencing its file; the calls made are the protocol's calls |
| Contact.UploadProtocol | src/app/api/contact/route.ts:92-150 | the declaration comes first, with the filename and the decoded length; the send comes exactly when the declaration succeeds and targets its id; the file is referenced exactly when the send succeeds too; the referenced file is that id under that filename; no page is created during the upload |
| Contact.BuildProperties | src/app/api/contact/route.ts:50-85 | `Name` always holds the name; Email, Phone, Twitter, LinkedIn and Company are present exactly when their input is truthy and carry it unchanged; no other key |
| Contact.FailureNote | src/app/api/contact/route.ts:156-160 | with no earlier note the note is "Selfie upload failed"; otherwise the earlier note, then " \| Selfie upload failed" |
| Contact.AttachSelfie | src/app/api/contact/route.ts:88-162 | the record carries the contact fields; with a truthy photo it has `Selfie` referencing the upload when that succeeded, and a `Note` of "Selfie upload failed" otherwise; no other keys |
| Contact.SavedRecordUnique | src/app/api/contact/route.ts:50-162 | the record description is complete: two maps both meeting it for the same submission and answers are equal |
| Contact.Post | src/app/api/contact/route.ts:10-196 | an unreadable body gives 500 "Failed to process submission"; a falsy name gives 400 "Name is required"; no connection gives 400 with the connection message; no token gives 500 "Contact service not available…"; none of these make a call. Otherwise the upload calls come first, then exactly one page creation in the contact database with the described record; its failure gives 500 "Failed to save contact information…", its success 200 with the success message |
| Contact.HasConnection | src/app/api/contact/route.ts:23-28 | one of email, phone, twitter, linkedin is truthy; company does not count |
| Contact.Accepted | src/app/api/contact/route.ts:15-28 | both guards pass: a truthy name and a connection |
| Contact.BlankNameAccepted | src/app/api/contact/route.ts:15-28 | the handler does not trim: every non-empty whitespace-only name with a connection passes validation |
| Analytics.ContextFields | src/app/api/analytics/route.ts:23-28 | the context keys are action, timestamp, userAgent, referer, ip; ip is x-forwarded-for when truthy, x-real-ip otherwise |
| Analytics.BuildEvent | src/app/api/analytics/route.ts:23-30 | the event's keys are the context keys plus the metadata's; metadata values win; other context values are kept |
| Analytics.PersistedProperties | src/app/api/analytics/route.ts:39-55 | the page has exactly the keys Action, Timestamp, User Agent, Referer, IP Address, and Action is the request's `action`; the other values are stated by `Analytics.PersistedFromRequest` |
| Analytics.Post | src/app/api/analytics/route.ts:10-73 | 500 exactly for an unreadable body; 400 "Action is required" exactly for a falsy action; 200 `{success:true}` once the action is present; one page creation in the analytics database exactly when validated and a token is present |
| Analytics.PersistedFromRequest | src/app/api/analytics/route.ts:23-56 | the page holds Action from `data.action`; the others come from the event, where metadata overrides; falsy user agent and ip become 'Unknown', a falsy referer null |
| Analytics.DefaultsWithoutMetadata | src/app/api/analytics/route.ts:44-54 | with no metadata and no headers: user agent and ip 'Unknown', referer null, timestamp the request time |
| Analytics.WriteFailureSwallowed | src/app/api/analytics/route.ts:35-64 | the answer and the calls do not depend on whether the write succeeds |
| Analytics.Get | src/app/api/analytics/route.ts:76-83 | status 200 with message 'Analytics endpoint active' and the current time |
| Banner.Validate | src/components/ConferenceBanner.tsx:79-89 | `name` error exactly when the trimmed name is empty; `connection` error exactly when email, phone, twitter and linkedin are all empty; both can be set together; no other key |
| Banner.Payload | src/components/ConferenceBanner.tsx:98-106 | the body always carries the untrimmed name and source 'conference_banner'; the optional fields are stated by `Banner.PayloadFields` |
| Banner.PayloadFields | src/components/ConferenceBanner.tsx:98-106 | the body carries the untrimmed name and source 'conference_banner'; each other field exactly when it is not empty, unchanged |
| Banner.ConferenceBanner.constructor | src/components/ConferenceBanner.tsx:18-41 | the initial state after the mount effect: dismissed exactly when active with the session flag set; hidden; a popup timer pending exactly when active without the flag |
| Banner.ConferenceBanner.CheckDismissedFlag | src/components/ConferenceBanner.tsx:25-41 | the previous timer is cleared; an active banner with the flag set becomes dismissed and hidden; an active, undismissed one schedules the popup |
| Banner.ConferenceBanner.TimerFires | src/components/ConferenceBanner.tsx:34-36 | the timer shows the popup and keeps the invariant |
| Banner.ConferenceBanner.Dismiss | src/components/ConferenceBanner.tsx:43-48 | hidden, dismissed, session flag set, timer cleared; the notifier then reports the bottom banner when active |
| Banner.ConferenceBanner.Reopen | src/components/ConferenceBanner.tsx:50-55 | visible, not dismissed, session flag removed; the notifier reports false |
| Banner.ConferenceBanner.OpenExchangeForm | src/components/ConferenceBanner.tsx:319 | opens the exchange form and changes nothing else |
| Banner.ConferenceBanner.CloseExchangeForm | src/components/ConferenceBanner.tsx:133-137 | closes the form and resets `formSubmitted` and `formErrors` |
| Banner.ConferenceBanner.BeginSubmit | src/components/ConferenceBanner.tsx:66-106 | no request exactly when a check fails, with the errors shown (the `name` and `connection` messages, each exactly when its check fails) and `isSubmitting` false; otherwise the request body is the payload, errors are cleared and `isSubmitting` stays set |
| Banner.ConferenceBanner.FinishSubmit | src/components/ConferenceBanner.tsx:108-121 | a resolved request marks the form submitted and clears the errors, whatever its status; a thrown one sets only the `submit` error; `isSubmitting` ends false |
| Banner.ConferenceBanner.CurrentView | src/components/ConferenceBanner.tsx:124-278 | the view chosen by the ordered render branches, each stated as an if-and-only-if over the state |
| Banner.ConferenceBanner.BannerShown | src/components/ConferenceBanner.tsx:58-64 | the value the notifier reports: active, dismissed and not visible; `Banner.BannerShownMatchesView` ties it to the rendered view |
| Banner.BannerShownMatchesView | src/components/ConferenceBanner.tsx:58-64 | outside the exchange form, the notifier reports the banner exactly when the bottom banner is the view |
| Banner.DismissThenReopen | src/components/ConferenceBanner.tsx:43-55 | from the popup, dismiss then reopen returns to the popup with the session flag cleared |
| Banner.MountDismissed | src/components/ConferenceBanner.tsx:25-32 | a session with the flag set starts on the bottom banner with no popup scheduled |
| Banner.ClientValidPassesServer | src/components/ConferenceBanner.tsx:79-106 | every form that passes the client checks sends a body the contact handler accepts |
| Banner.ServerLaxerOnName | src/components/ConferenceBanner.tsx:80-82 | the converse fails: a name of spaces is refused by the form but accepted by the handler |

## Left out

- The network: the `fetch` calls to the file-upload endpoints and `notion.pages.create` are replaced by the answers in `Contact.Services` and the `create` argument of `Analytics.Post`. A fetch that throws and one that answers non-ok are the same `Rejected`/`false`.
- A declaration that answers ok without an `id` is not modelled: the id is always a string.
- `Buffer.from(…, 'base64')` is not modelled: only the decoded length enters, as `Services.decodedLength`. Node's base64 decoding is lenient and skips characters outside the alphabet instead of throwing, so a string photo has no decode-failure path. The only error the photo block can raise before its first request is the TypeError of `.replace` on a non-string photo, and `Contact.UploadSelfie` models that one.
- The clock, the request headers and `process.env.NOTION_TOKEN` are not modelled: they are parameters.
- `console.*` calls and the logged-only `contactData` object have no observable effect and are left out.
- `downloadVCard`, `shareContent` and `cn` in src/lib/utils.ts: browser and styling APIs.
- `generateVCardContent` in src/app/api/contact/route.ts: unused, and it returns a constant.
- The JSX, CSS, props other than `isActive`, and the parent's `onBannerShow` callback: the callback is modelled only as the value `BannerShown` reports. The immediate `onBannerShow` calls inside the dismiss and reopen handlers are not modelled separately; the effect's report after them is.
- The `setTimeout` delay is not modelled: the timer is a pending flag plus `TimerFires`.
- `sessionStorage` is not modelled: it is a boolean field.
- SelfieExchange, TopNav, page.tsx and the other components: browser plumbing and static UI.
- Analytics.BuildEvent: metadata is modelled as an object only. Spreading a string or array metadata (its indices become keys) is not modelled.
- Analytics.Get: the `catch` branch of `GET` cannot be reached and is not modelled.
- Numbers in request bodies are integers here; no floating point.
- VCard.ExactLines: the exact-lines, order and presence results assume no field holds a line break. The frame, no-blank-line and idempotence results hold for every card. A field with a line break spills onto extra lines, because no RFC 2426 escaping is done.
- VCard.SevenLines: the site's own contact card (src/components/ContactButtons.tsx:7-12) is covered by this general lemma; it is not evaluated as a literal.
