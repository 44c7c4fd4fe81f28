# Call-agent page: phone formatting, call start and call status

This project models the logic of the AI call page (`app/call-agent/page.tsx`) of a
Next.js site, in Dafny, and proves properties of it. The page lets a user pick a
dialling region, type a phone number and start an outbound AI phone call, then follows
the call's status until it ends.

- **Region table** (`PhoneRegions`): the 41 regions in source order, each with its code,
  name, dial prefix, display `format` and national digit count. `Find` is JavaScript's
  `Array.find`, so it returns the first region with the given code.
- **Formatter** (`PhoneFormat`):
  - `formatPhoneNumber` leaves the input unchanged for an unknown region code;
  - otherwise it drops every non-digit (`\D`), keeps at most `digits` digits, and groups
    them by the `switch` arm for the code.
  - `Slice`/`SliceFrom` are JavaScript's clamping `String.prototype.slice`.
  - `Grouped` has one arm per group of `case` labels, written out exactly as in the
    source.
- **Display shapes** (`PhoneTemplate`): `Shape` writes a string as the `format` column
  does, with `X` for every digit. This is used to compare what the formatter shows for a
  complete number with the table's `format` entry.
- **Call start** (`CallStart`): what `handleStartCall` validates before dialling, the
  error messages, and the number it dials. For a code outside the table, the dial prefix
  renders as the text `undefined`, as `${region?.dialCode}` does in JavaScript.
- **Call session** (`CallSession`):
  - the page's state (`callStatus`, `callProgress`, `isProcessing`, `callId`,
    `errorMessage`), together with the local poll counter and whether the interval is
    still running;
  - each handler as a function of that state (`OnStart`, `OnStartAnswered`, `OnTick`,
    `OnReset`, …);
  - which controls the rendered page offers in each state (`Enabled`);
  - an invariant that every offered event keeps.
  - The class `CallAgent` holds the same state as fields. Its methods update the fields
    in the order the source's setters run, and each proves its new state equals the
    transition function applied to the old state.

React applies the setters queued in one handler in order, and the functional update
`prev => Math.min(prev + 2, 95)` sees the latest value. So one handler run is one
sequential update of the state. The network replies are inputs:
- the answer of the start request is one of `CallCreated`, `CallRefused` or
  `RequestFailed`;
- the result of one status poll is `Reported(status)` or `PollFailed`.

Some consequences that are proved:
- Polling stops once it has read enough reported statuses to bring its counter to 300.
- A poll request that keeps throwing never stops polling, because the limit is only
  checked after a status has been read.
- When the 300th poll reports `failed`, the page shows `completed` together with the
  message "Call failed".
- A failed call leaves no control but dismissing the message, so the page stays failed.
- The table's `format` entry matches what the formatter shows for a complete number for
  the United States and Canada. It does not match for the United Kingdom, Spain, Mexico
  and Norway; for Mexico, for example, the entry says `XX XXXX XXXX` and the formatter
  produces `XXX XXXXXXX`. These are the entries proved either way. Read off the source,
  18 of the 41 entries agree (US, CA, AU, IN, CN, JP, DE, FR, IT, BR, KE, SG, PH, ID, BD,
  TR, KR, DK) and the other 23 do not.

## Model

| member | source | states |
|---|---|---|
| PhoneRegions.Find | app/call-agent/page.tsx:76 | the region found has the code asked for; nothing is found exactly when no entry has the code; a found region is the first entry with that code |
| PhoneRegions.EntryWellFormed | app/call-agent/page.tsx:31-73 | every table entry has a dial prefix of `+` followed by digits and needs between 8 and 11 digits |
| PhoneRegions.FirstHalfWellFormed | app/call-agent/page.tsx:31-52 | the same for the first 21 entries |
| PhoneRegions.SecondHalfWellFormed | app/call-agent/page.tsx:53-73 | the same for the remaining 20 entries |
| PhoneRegions.MemberWellFormed | app/call-agent/page.tsx:31-73 | so does every member of the table |
| PhoneRegions.CodesDistinct | app/call-agent/page.tsx:31-73 | no two entries of the table share a code |
| PhoneRegions.EntryIndexed | app/call-agent/page.tsx:31-73 | every entry sits at the position its code names, so the code determines the entry |
| PhoneRegions.IndexedA | app/call-agent/page.tsx:32-42 | the same for entries 0 to 10 |
| PhoneRegions.IndexedB | app/call-agent/page.tsx:43-52 | the same for entries 11 to 20 |
| PhoneRegions.IndexedC | app/call-agent/page.tsx:53-62 | the same for entries 21 to 30 |
| PhoneRegions.IndexedD | app/call-agent/page.tsx:63-72 | the same for entries 31 to 40 |
| PhoneRegions.LookupFindsEntry | app/call-agent/page.tsx:76 | looking up the code of a table entry finds exactly that entry |
| PhoneFormat.Digits | app/call-agent/page.tsx:79 | `replace(/\D/g, '')` leaves only digits and never lengthens the string |
| PhoneFormat.LimitedIsPrefix | app/call-agent/page.tsx:79-80 | the limited digits are the first `min(len, digits)` digits of the input |
| PhoneFormat.UnknownRegionUnchanged | app/call-agent/page.tsx:76-77 | for a code not in the table the input is returned unchanged |
| PhoneFormat.EntryHasArm | app/call-agent/page.tsx:82-192 | every table code has an explicit `case`, and the slices of that case reach the region's full digit count |
| PhoneFormat.FirstHalfHasArm | app/call-agent/page.tsx:31-52 | the same for the first 21 entries |
| PhoneFormat.SecondHalfHasArm | app/call-agent/page.tsx:53-73 | the same for the remaining 20 entries |
| PhoneFormat.MemberHasArm | app/call-agent/page.tsx:82-192 | so does every member of the table, by its code |
| PhoneFormat.UsCaKeepsDigits | app/call-agent/page.tsx:83-87 | on up to 10 digits the US/CA arm keeps every digit in order and adds only separators |
| PhoneFormat.BrKeepsDigits | app/call-agent/page.tsx:89-92 | the same for the BR arm, up to 11 digits |
| PhoneFormat.GbKeepsDigits | app/call-agent/page.tsx:94-97 | the same for the GB arm, up to 10 digits |
| PhoneFormat.AuKeepsDigits | app/call-agent/page.tsx:99-102 | the same for the AU arm, up to 9 digits |
| PhoneFormat.InKeepsDigits | app/call-agent/page.tsx:104-106 | the same for the IN arm, up to 10 digits |
| PhoneFormat.CnKeepsDigits | app/call-agent/page.tsx:108-111 | the same for the CN arm, up to 11 digits |
| PhoneFormat.JpKrKeepsDigits | app/call-agent/page.tsx:113-117 | the same for the JP/KR arm, up to 10 digits |
| PhoneFormat.FrKeepsDigits | app/call-agent/page.tsx:119-124 | the same for the FR arm, up to 9 digits |
| PhoneFormat.DeNgEgMxKeepsDigits | app/call-agent/page.tsx:126-131 | the same for the DE/NG/EG/MX arm, for any length |
| PhoneFormat.ItPhPkTrKeepsDigits | app/call-agent/page.tsx:133-139 | the same for the IT/PH/PK/TR arm, for any length |
| PhoneFormat.EsSaAeNzThVnIlPlUaFiKeepsDigits | app/call-agent/page.tsx:141-153 | the same for the ES/SA/AE/NZ/TH/VN/IL/PL/UA/FI arm, for any length |
| PhoneFormat.ArZaKeepsDigits | app/call-agent/page.tsx:155-158 | the same for the AR/ZA arm, for any length |
| PhoneFormat.SgKeepsDigits | app/call-agent/page.tsx:160-162 | the same for the SG arm, up to 8 digits |
| PhoneFormat.MyKeepsDigits | app/call-agent/page.tsx:164-167 | the same for the MY arm, for any length |
| PhoneFormat.IdKeepsDigits | app/call-agent/page.tsx:169-172 | the same for the ID arm, up to 11 digits |
| PhoneFormat.KeNlBeSeKeepsDigits | app/call-agent/page.tsx:174-179 | the same for the KE/NL/BE/SE arm, for any length |
| PhoneFormat.NoDkKeepsDigits | app/call-agent/page.tsx:181-186 | the same for the NO/DK arm, up to 8 digits |
| PhoneFormat.BdRuKeepsDigits | app/call-agent/page.tsx:188-191 | the same for the BD/RU arm, for any length |
| PhoneFormat.GroupedKeepsDigits | app/call-agent/page.tsx:82-195 | any arm, on digits within its reach, including the default arm, keeps the digits and adds only separators |
| PhoneFormat.FormatOnlyInsertsSeparators | app/call-agent/page.tsx:75-196 | for a known region, deleting the non-digits from the output gives exactly the first `min(len, digits)` digits of the input, and the output has only digits and ` `, `-`, `(`, `)` |
| PhoneFormat.GroupedEmpty | app/call-agent/page.tsx:82-195 | every arm maps no digits to the empty string |
| PhoneFormat.FormatDigitBound | app/call-agent/page.tsx:79-80 | the output holds `min(len, digits)` and so at most `digits` digit characters; an input without digits gives the empty string |
| PhoneFormat.RegroupedIsStable | app/call-agent/page.tsx:79-195 | limiting an arm's output back to `n` digits gives that arm's input, so the arm shows the same text again |
| PhoneFormat.FormatIdempotent | app/call-agent/page.tsx:75-196 | formatting a formatted value changes nothing, for every region code |
| PhoneFormat.NorthAmericanRegion | app/call-agent/page.tsx:32-33 | US and CA are in the table with 10 digits and share the first arm |
| PhoneFormat.NorthAmericanShape | app/call-agent/page.tsx:83-87 | US/CA: up to 3 digits stay bare, then `(DDD) D…`, then `(DDD) DDD-D…`, and 10 or more digits give exactly `(DDD) DDD-DDDD` |
| PhoneTemplate.ShapeFacts | app/call-agent/page.tsx:32-72 | writing a string in the `format` column's notation distributes over concatenation, commutes with both clamping slices, and keeps the separators `(`, `) `, ` ` and `-` |
| PhoneTemplate.UsCaShape | app/call-agent/page.tsx:83-87 | the US/CA arm commutes with replacing digits by `X` |
| PhoneTemplate.BrShape | app/call-agent/page.tsx:89-92 | the same for the BR arm |
| PhoneTemplate.GbShape | app/call-agent/page.tsx:94-97 | the same for the GB arm |
| PhoneTemplate.AuShape | app/call-agent/page.tsx:99-102 | the same for the AU arm |
| PhoneTemplate.InShape | app/call-agent/page.tsx:104-106 | the same for the IN arm |
| PhoneTemplate.CnShape | app/call-agent/page.tsx:108-111 | the same for the CN arm |
| PhoneTemplate.JpKrShape | app/call-agent/page.tsx:113-117 | the same for the JP/KR arm |
| PhoneTemplate.FrShape | app/call-agent/page.tsx:119-124 | the same for the FR arm |
| PhoneTemplate.DeNgEgMxShape | app/call-agent/page.tsx:126-131 | the same for the DE/NG/EG/MX arm |
| PhoneTemplate.ItPhPkTrShape | app/call-agent/page.tsx:133-139 | the same for the IT/PH/PK/TR arm |
| PhoneTemplate.EsSaAeNzThVnIlPlUaFiShape | app/call-agent/page.tsx:141-153 | the same for the ES/SA/AE/NZ/TH/VN/IL/PL/UA/FI arm |
| PhoneTemplate.ArZaShape | app/call-agent/page.tsx:155-158 | the same for the AR/ZA arm |
| PhoneTemplate.SgShape | app/call-agent/page.tsx:160-162 | the same for the SG arm |
| PhoneTemplate.MyShape | app/call-agent/page.tsx:164-167 | the same for the MY arm |
| PhoneTemplate.IdShape | app/call-agent/page.tsx:169-172 | the same for the ID arm |
| PhoneTemplate.KeNlBeSeShape | app/call-agent/page.tsx:174-179 | the same for the KE/NL/BE/SE arm |
| PhoneTemplate.NoDkShape | app/call-agent/page.tsx:181-186 | the same for the NO/DK arm |
| PhoneTemplate.BdRuShape | app/call-agent/page.tsx:188-191 | the same for the BD/RU arm |
| PhoneTemplate.GroupedShape | app/call-agent/page.tsx:82-195 | so the displayed shape of the output depends only on how many digits there are |
| PhoneTemplate.FullLengthShape | app/call-agent/page.tsx:75-196 | once the input has at least the region's digit count, the output's shape is the arm applied to `digits` placeholders |
| PhoneTemplate.DisplayedInFormat | app/call-agent/page.tsx:75-196 | for an entry whose `format` agrees with its arm, a complete number is displayed in exactly that format |
| PhoneTemplate.UsCaComplete | app/call-agent/page.tsx:83-87 | the US/CA arm shows a complete number as `(XXX) XXX-XXXX` |
| PhoneTemplate.NorthAmericanFormatAgrees | app/call-agent/page.tsx:32-33 | the US and CA `format` entries are what the formatter's first arm (lines 83-87) shows |
| PhoneTemplate.DeNgEgMxComplete | app/call-agent/page.tsx:126-131 | the DE/NG/EG/MX arm shows ten digits as `XXX XXXXXXX` |
| PhoneTemplate.MexicoFormatDisagrees | app/call-agent/page.tsx:44 | the Mexico entry says `XX XXXX XXXX` but the formatter's arm at lines 126-131 shows `XXX XXXXXXX` |
| PhoneTemplate.GbComplete | app/call-agent/page.tsx:94-97 | the GB arm shows ten digits as `XXXX XXX XXX` |
| PhoneTemplate.UnitedKingdomFormatDisagrees | app/call-agent/page.tsx:34 | the United Kingdom entry says `XXXX XXX XXXX` but the formatter's arm at lines 94-97 shows `XXXX XXX XXX` |
| PhoneTemplate.EsSaAeNzThVnIlPlUaFiComplete | app/call-agent/page.tsx:141-153 | the ES/SA/AE/NZ/TH/VN/IL/PL/UA/FI arm shows nine digits as `XXX XX XXXX` |
| PhoneTemplate.SpainFormatDisagrees | app/call-agent/page.tsx:42 | the Spain entry says `XXX XX XX XX` but the formatter's arm at lines 141-153 shows `XXX XX XXXX` |
| PhoneTemplate.NoDkComplete | app/call-agent/page.tsx:181-186 | the NO/DK arm shows eight digits as `XX XX XX XX` |
| PhoneTemplate.NorwayFormatDisagrees | app/call-agent/page.tsx:68 | the Norway entry says `XXX XX XXX` but the formatter's arm at lines 181-186 shows `XX XX XX XX` |
| CallStart.StartAcceptedIff | app/call-agent/page.tsx:199-212 | a start is accepted exactly when the field is non-empty and, for a known region, its digit count equals the region's; an empty field gives "Please enter a phone number" |
| CallStart.DialedNumberForm | app/call-agent/page.tsx:206-219 | a non-empty field with the region's digit count is accepted, and the dialed number is the region's prefix followed by the field's digits: `+` and digits only, prefix length plus `digits` characters |
| CallStart.WrongLengthRejected | app/call-agent/page.tsx:209-211 | a wrong digit count is rejected with the message for that region, and the count in that message reads back as the region's digit count |
| CallStart.UnknownRegionDialsUndefined | app/call-agent/page.tsx:206-219 | for a code outside the table only emptiness is checked, and the dialed number starts with `undefined` |
| CallStart.FormattedFieldAccepted | app/call-agent/page.tsx:201-219 | a field filled by the formatter is accepted exactly when the user typed at least `digits` digits, and then the first `digits` typed digits are dialed after the prefix |
| CallSession.InitialInv | app/call-agent/page.tsx:19-25 | the initial page is idle with region US and meets the invariant |
| CallSession.TickPreservesInv | app/call-agent/page.tsx:261-288 | a poll tick keeps the invariant |
| CallSession.StepPreservesInv | app/call-agent/page.tsx:198-301 | every event whose control the page offers keeps the invariant |
| CallSession.RunPreservesInv | app/call-agent/page.tsx:198-301 | so does every sequence of events |
| CallSession.ReachableInv | app/call-agent/page.tsx:198-301 | every page reachable from the initial one meets the invariant: progress in 0..100, polling exactly while in the call, and the per-status facts |
| CallSession.ProgressFullOnlyWhenCompleted | app/call-agent/page.tsx:214-276 | the bar is full only for a completed call and otherwise at most 95 |
| CallSession.StartOutcome | app/call-agent/page.tsx:198-216 | a start click moves to calling with progress 10 exactly when validation accepts; otherwise the page stays idle and shows the validation message |
| CallSession.WrongLengthNonEmpty | app/call-agent/page.tsx:210 | the wrong-length message is never empty |
| CallSession.TypeThenStart | app/call-agent/page.tsx:198-216 | typing and then clicking start reaches calling exactly when at least the region's digit count was typed |
| CallSession.StartAnsweredOutcome | app/call-agent/page.tsx:237-254 | a created call is in progress at 30 with its id and a fresh poll; a refusal fails with the endpoint's error or "Failed to initiate call"; a thrown error fails with its message; both failures reset progress to 0 |
| CallSession.TickProgress | app/call-agent/page.tsx:264-276 | a tick never lowers the bar; it fills it exactly on `completed`/`ended` and otherwise sets it to `min(prev + 2, 95)` |
| CallSession.TickOutcome | app/call-agent/page.tsx:261-291 | the counter always rises; a thrown request changes nothing else; exactly when the tick stops polling, completes or fails the call, including the forced completion at 300 that overrides `failed` |
| CallSession.PollingStops | app/call-agent/page.tsx:258-288 | enough reported statuses to reach the limit stop the poll |
| CallSession.FailedPollsNeverStop | app/call-agent/page.tsx:261-291 | requests that keep throwing only raise the counter and never stop the poll |
| CallSession.ResetOutcome | app/call-agent/page.tsx:295-301 | reset returns to an idle page with progress 0, no id and no message, keeps the field, and offers a new start |
| CallSession.FailedIsFinal | app/call-agent/page.tsx:435-450 | on a failed page the only control offered (the buttons and the inputs disabled outside idle, lines 343 and 373-405) is dismissing the message, which leaves it failed |
| CallSession.FailedStaysFailed | app/call-agent/page.tsx:198-301 | no sequence of events leaves the failed status |
| CallSession.CallAgent.constructor | app/call-agent/page.tsx:19-25 | the initial field values |
| CallSession.CallAgent.Edit | app/call-agent/page.tsx:402 | the field becomes the formatted input |
| CallSession.CallAgent.SelectRegion | app/call-agent/page.tsx:373-376 | the region changes and the field is cleared |
| CallSession.CallAgent.StartCall | app/call-agent/page.tsx:198-219 | the state after the synchronous part of the start handler, and the number it dials when validation accepts |
| CallSession.CallAgent.ReceiveStartReply | app/call-agent/page.tsx:237-254 | the state after the start request is answered |
| CallSession.CallAgent.PollTick | app/call-agent/page.tsx:261-291 | the state after one interval tick, with the setters in source order |
| CallSession.CallAgent.Reset | app/call-agent/page.tsx:295-301 | the state after `handleReset` |
| CallSession.CallAgent.DismissError | app/call-agent/page.tsx:343 | the message is cleared |

## Left out

- JSX rendering, the theme and the `mounted` guard: these are markup with no behaviour. The gating the markup imposes is modelled as `Enabled`: which buttons are rendered, and which inputs or buttons are disabled.
- The `flag` and `placeholder` columns of the region table are not read by any logic.
- `getFullPhoneNumber` only builds the "Dialing …" display text.
- The `fetch` calls, `console.log`/`console.error`, `process.env` and the 2000 ms `setInterval`: these are I/O and timer plumbing. Replies are inputs, and one tick is one call of `OnTick`.
- A tick whose request is still pending when `clearInterval` runs can finish later and update the state again. The model runs ticks one at a time and only while the interval is running.
- The start handler's fallback message 'Failed to start call' is not modelled. It applies only to a thrown value that is not an `Error`, and every throw in that block is a `fetch`/`json` rejection or `new Error`.
- A success reply without a `callId` is not modelled: the id would be `undefined`, and `CallCreated` always carries a string.
- PhoneTemplate.MexicoFormatDisagrees: only four disagreeing entries are proved: the United Kingdom, Spain, Mexico and Norway. Only two agreeing ones are proved: the United States and Canada. The comparison for the other 35 entries is not stated, because a proof per literal entry is too costly for the solver.
- The other files of the repository are not part of this model: the call API route, the text-to-speech page, navigation and the automation form.
