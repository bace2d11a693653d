# geothermal, modelled in Dafny

geothermal is a Go library that drives the Steam Community website as a bot. This project models the library's core and proves properties of the model:

- **SteamID64 codec.** A 64-bit Steam id packs an account number, an instance, an account type and a universe into bit fields. The model covers building an id from its fields and splitting it back, the convenience constructors for users and groups, and the name and letter tables.
- **Session id.** The client scans its cookie jar for the `sessionid` cookie and URL-unescapes its value. After each scan that finds no such cookie it fetches the community page, hoping the server sets one. It gives up after two scans, and so after two fetches.
- **Login flow.** The client fetches the account's RSA key, which arrives as hex strings. It then posts the encrypted password and absorbs the server's reply into a `Login` record. `CompleteInteractive` reads a CAPTCHA solution or a SteamGuard code from standard input and tries again, until the login completes or nothing is left to ask for.
- **Web chat.** The chat access token is scraped from the chat page with a regular expression. The presence logon, sending a message and long-polling are modelled too. A poll decodes its batch in two passes: first into the common message fields, then into the variant that the type tag selects.

The model has seven modules, one file each:

- `errors.dfy` holds Option, Result and one datatype with a constructor per kind of Go error the core reports.
- `ids.dfy` models `ids.go`.
- `http.dfy` holds what the core sees of an HTTP exchange.
- `encoding.dfy` holds the standard-library conversions the core relies on: hex decoding, `url.QueryUnescape`, `big.Int` and Go's `int` conversion.
- `session.dfy` models `geothermal.go`.
- `clientlogin.dfy` models `clientlogin.go`.
- `chat.dfy` models `chat/chat.go`.

Go records whose fields are updated in place are classes: `Client`, the cookie jar, `Login` and `Chat`. `Login` and `Chat` have a `State()` snapshot of their fields. The methods of all four are proved against pure functions of the old state: `Lookup`, `AttemptOutcome`, `Interact`, `LogonOutcome`, `Advanced` and `Slots`. Every HTTP exchange is a function parameter that maps the request record to the reply. The network, the clock, standard input and RSA encryption are therefore inputs to the model, not effects.

Integers follow Go's widths:
- Steam ids are `bv64`.
- `uint8(...)` truncation is written out.
- The poll counter wraps modulo 2^64, like Go's 64-bit `uint`.
- The RSA exponent goes through `big.Int.Uint64` and then `int`, so only its low 64 bits are kept, and the result is negative when those low 64 bits are at least 2^63.

Two behaviours of the code are easy to misread, and the model states them as written:
- **Unknown message tag.** For an entry with a type tag it does not know, `Poll` prints a warning and carries on to the second decode (chat/chat.go:301-305). The commented-out alternative at chat/chat.go:302-303 would have returned an explicit error for the tag instead. The second decode (chat/chat.go:307) then goes into a nil target, fails, and so fails the whole poll. `Chat.UnknownTagAborts` and `Chat.UnknownTagOrder` state this: a text message survives only when it comes before the unknown entry.
- **Instance width.** The comment at ids.go:97 gives the instance 20 bits, but `Decompose` keeps only `uint8(c & 0x3ff)` (ids.go:121), the low 8 of them. An account type of 16 or more also spills into the universe bits. Decomposing is therefore not always the inverse of `NewID64`. `SteamIds.NewID64Decompose` and `SteamIds.WideAccountTypeSpills` state exactly when it is.

## Model

| member | source | states |
|---|---|---|
| SteamIds.UniverseString | ids.go:22-31 | a universe has a name exactly when it is one of the six defined values; Public is "Public" |
| SteamIds.AccountTypeString | ids.go:50-65 | an account type has a name exactly when it is one of the eleven defined values |
| SteamIds.Letter | ids.go:67-92 | the letter is empty exactly for SuperSeeder and AnonUser and is at most one character otherwise; an undefined type panics in Go, so the model requires a defined one |
| SteamIds.NewID64 | ids.go:94-105 | the account number fills the low 32 bits, the instance bits 32-39, bits 40-51 stay zero, the low 4 bits of the type sit at 52-55, and the universe ORed with the type's high bits fills 56-63 |
| SteamIds.Decompose | ids.go:115-132 | each field is read from its bit range; the instance keeps only the low 8 of its 20 bits |
| SteamIds.UserSteamID | ids.go:107-109 | a user id is 76561197960265728 plus the account number |
| SteamIds.GroupSteamID | ids.go:111-113 | a group id is 103582791429521408 plus the account number |
| SteamIds.DecomposeNewID64 | ids.go:94-132 | decomposing a packed id returns the packed fields when the account type fits in 4 bits |
| SteamIds.WideAccountTypeSpills | ids.go:94-132 | an account type of 16 or more comes back truncated, and its high bits are ORed into the universe |
| SteamIds.NewID64Decompose | ids.go:94-132 | repacking a decomposed id gives the id back exactly when bits 40-51 are zero |
| SteamIds.NewID64Injective | ids.go:94-105 | distinct field tuples with 4-bit types give distinct ids |
| SteamIds.UserSteamIDFields | ids.go:107-109 | a user id decomposes to instance 1, Individual, Public, with letter "U" |
| SteamIds.GroupSteamIDFields | ids.go:111-113 | a group id decomposes to instance 0, Clan, Public, with letter "g" |
| Encoding.HexDecode | clientlogin.go:160-167 | decoding succeeds exactly on an even-length string of hex digits, with one byte per digit pair; an odd length of digits gives the length error; otherwise the error names the first non-digit |
| Encoding.HexRoundTrip | clientlogin.go:160-167 | decoding the lower-case hex encoding of any byte string gives the bytes back |
| Encoding.BigEndian | clientlogin.go:169-170 | the value of n bytes is below 256^n |
| Encoding.BigEndianLeadingZero | clientlogin.go:169-170 | a leading zero byte does not change the value |
| Encoding.Int | clientlogin.go:169 | Go's `int` of a uint64 lies in the signed 64-bit range and agrees with it modulo 2^64 |
| Encoding.Uint64 | clientlogin.go:169 | `big.Int.Uint64` agrees with the value modulo 2^64, and is the value itself below 2^64 |
| Encoding.ShortExponentExact | clientlogin.go:169 | an exponent of at most seven bytes passes through `Uint64` and `int` unchanged |
| Encoding.QueryUnescape | geothermal.go:52 | unescaping succeeds exactly when every '%' is followed by two hex digits; the result is no longer than the input; a failure is an escape error quoting one to three characters that start with '%' |
| Encoding.QueryRoundTrip | geothermal.go:52 | unescaping undoes `url.QueryEscape` on every byte string: an escape `%XX` decodes to the byte XX, `+` to a space, and unreserved characters to themselves |
| Encoding.PlainValueUnescapes | geothermal.go:52 | a value with no '%' and no '+' unescapes to itself |
| Session.Client.FindSessionID | geothermal.go:48-63 | the returned id, the error and the jar afterwards are those of `Lookup` with two scans |
| Session.Lookup | geothermal.go:48-63 | a lookup fails with an empty id; a successful one returns the unescaped value of the first `sessionid` cookie of the jar it ends with |
| Session.Unescaped | geothermal.go:52 | the id and error `url.QueryUnescape` returns: the unescaped value when it succeeds, otherwise an empty id and an escape error |
| Session.IndexOfSessionCookie | geothermal.go:50-52 | the first cookie named `sessionid`, or none exactly when no cookie has that name |
| Session.FoundWithoutRefresh | geothermal.go:49-53 | a cookie already in the jar is returned unescaped, and no page is fetched |
| Session.NoSIDExactly | geothermal.go:49-62 | the lookup fails with NoSID exactly when neither the jar nor the jar after one fetch holds the cookie; the id is then empty and two fetches have happened |
| Session.LookupErrors | geothermal.go:48-63 | the lookup fails only with NoSID or an escape error |
| Session.AtMostTwoRefreshes | geothermal.go:49-58 | at most two page fetches are made |
| Session.FoundIsFirstSessionCookie | geothermal.go:50-52 | a successful lookup returns the unescaped value of the first `sessionid` cookie in the jar it scanned |
| ClientLogin.RequestOf | clientlogin.go:82-94 | the dologin form carries the user name, the ciphertext, the SteamGuard code, the computer name, the captcha id and solution and the key timestamp, with `remember_login` false |
| ClientLogin.Absorb | clientlogin.go:103-113 | a decoded reply always replaces completion, the SteamGuard flag, the e-mail domain and the message, and replaces the captcha id only when a captcha is needed; the credentials and the user's input are kept |
| ClientLogin.AbsorbIdempotent | clientlogin.go:103-113 | a small sanity check: absorbing the same reply twice equals absorbing it once |
| ClientLogin.AbsorbKeepsRequest | clientlogin.go:82-94 | the next attempt posts the same credentials and user input; only the captcha id may change |
| ClientLogin.AbsorbNothingPending | clientlogin.go:103-113 | a reply without captcha or SteamGuard leaves nothing to resolve when no captcha id was pending |
| ClientLogin.CaptchaGIDOf | clientlogin.go:57-59 | a recovered id, appended to the community URL and the captcha path, gives the URL back |
| ClientLogin.Login.CaptchaURL | clientlogin.go:57-59 | the captcha id can be read back from the URL |
| ClientLogin.ParseRSAKey | clientlogin.go:141-174 | an undecodable body is a decode error; a reply reporting failure is GetRSAKeyFailed; success holds exactly when both hex strings decode; the exponent's hex error comes first, then the modulus's; on success the exponent is `int(Uint64(...))` of the exponent bytes' big-endian value, the modulus is the modulus bytes' big-endian value (below 256 to the power of their count), and the timestamp is kept |
| ClientLogin.ParseEncodedKey | clientlogin.go:160-172 | a key sent as the hex of its bytes parses to the bytes' big-endian values, with an exact exponent of up to seven bytes |
| ClientLogin.GetRSAKey | clientlogin.go:128-174 | a transport error is returned as it is; otherwise the jar takes the reply's cookies and the key is `ParseRSAKey` of the body |
| ClientLogin.KeyOf | clientlogin.go:132-173 | a transport error is the result; otherwise the result is `ParseRSAKey` of the body, and a key comes only from a decoded reply reporting success, with its timestamp |
| ClientLogin.AttemptOutcome | clientlogin.go:61-123 | a reply that does not decode is a decode error that leaves the record and the session id as they were, the jar holding the reply's cookies; a decoded reply is always absorbed, and the session id, error and jar are then exactly those of the two-scan `Lookup`, even when it fails; the next request differs at most in the captcha id |
| ClientLogin.Login.TakeReply | clientlogin.go:103-113 | the record becomes `Absorb` of the decoded reply, and the client is kept |
| ClientLogin.Login.Attempt | clientlogin.go:61-123 | the record, the client's session id, the jar and the error are those of `AttemptOutcome` for the record and session id before the call |
| ClientLogin.Login.PromptCAPTCHA | clientlogin.go:237-239 | a line read becomes the captcha solution; a read error is returned and the solution is kept |
| ClientLogin.Login.PromptSteamGuard | clientlogin.go:243-245 | a line read becomes the SteamGuard code; a read error is returned and the code is kept |
| ClientLogin.Prompted | clientlogin.go:260-274 | a round prompts for the captcha solution exactly when a captcha id is pending, then for the SteamGuard code exactly when one is asked for, each taken from the next line; only those two fields change; a failed captcha read changes nothing and returns its cause; a failed SteamGuard read keeps the captcha line read before it and returns its cause |
| ClientLogin.Login.PromptPending | clientlogin.go:259-274 | the record, the input position and the error are those of `Prompted`; the count is the number of prompts that were pending |
| ClientLogin.Interact | clientlogin.go:251-286 | when a round has prompts pending and they are all answered, its first request is the one posted from the record those prompts leave |
| ClientLogin.InteractEnds | clientlogin.go:251-286 | an interactive login ends without error only once complete, and with LoginFail only when incomplete with nothing pending; its other errors are read, decode, NoSID and escape errors; every attempt follows at least one line of input |
| ClientLogin.InteractKeepsCredentials | clientlogin.go:251-286 | an interactive login never changes the user name, the ciphertext, the key timestamp or the computer name |
| ClientLogin.InteractRequests | clientlogin.go:251-286 | every request an interactive login posts carries the user name, ciphertext, key timestamp and computer name it started with |
| ClientLogin.RoundRequest | clientlogin.go:260-280 | the request of a round carries the lines read for that round's pending prompts as captcha text and SteamGuard code, and otherwise the record's own fields |
| ClientLogin.Login.Round | clientlogin.go:252-285 | one pass of the loop: an error ends the login where `Interact` ends it, with the request posted if any; otherwise exactly one request was posted, input moved on, and the rest of the login is `Interact` from the new record |
| ClientLogin.Login.CompleteInteractive | clientlogin.go:251-286 | the record, the client's session id, the jar, the error and the number of lines read are those of `Interact` from the record before the call; a complete login is left alone; an incomplete one with nothing pending fails with LoginFail and no attempt |
| ClientLogin.Started | clientlogin.go:191-205 | the first attempt posts the user name, the ciphertext and the key's timestamp, with no user input |
| ClientLogin.Login.Begin | clientlogin.go:195-205 | records the ciphertext, the user name and the client, and nothing else |
| ClientLogin.BeginLogin | clientlogin.go:178-209 | the client ends with a jar; a key failure returns with the zero record, an encryption failure with only the timestamp set, and both leave the session id alone and the jar as the key request left it; otherwise the record, session id, jar and error are those of `AttemptOutcome` from `Started` |
| Chat.SkipSpace | chat/chat.go:17 | the first non-whitespace position, as `\s` reads whitespace |
| Chat.NextComma | chat/chat.go:17 | the first comma at or after a position |
| Chat.MatchAt | chat/chat.go:17 | a match captures exactly 32 lower-case hex digits |
| Chat.LeftmostMatch | chat/chat.go:31 | the position returned matches and no earlier one does; none exactly when no position matches |
| Chat.ChatAccessToken | chat/chat.go:22-41 | a fetch error is returned with an empty token; a page with no match gives ErrNoAuthToken; a page with a match always gives a token, and a token is the capture of the leftmost match and comes with the read error, if any |
| Chat.TokenOfCall | chat/chat.go:17-38 | a page holding one `CWebAPI(a,b,"token")` call yields that token with no error |
| Chat.BaseMessage.MessageType | chat/chat.go:78 | the bare base message reports no variant's type |
| Chat.BaseMessage.MessageTimestamp | chat/chat.go:79 | the timestamp is the message's own `timestamp` field |
| Chat.Message.MessageTimestamp | chat/chat.go:79-91 | every variant reports the timestamp of the base message it embeds |
| Chat.Message.MessageType | chat/chat.go:88-108 | each variant reports its own type, between Saytext and Leftconversation |
| Chat.TagType | chat/chat.go:290-305 | a tag selects one of the four variant types, or none |
| Chat.DecodeVariant | chat/chat.go:289-311 | an unknown tag fails with the nil-target error; a decoded message keeps the base fields and has the type its tag names; `Self` is set exactly for `my_saytext`; a text entry decodes exactly when its text does, and a persona entry exactly when its name and state do, carrying those values or the decode error of the mismatched field that comes first in the entry; typing and leftconversation entries always decode |
| Chat.DecodeEntry | chat/chat.go:283-311 | a decoded entry's base fields are those of the first pass, and its type is the one its tag names |
| Chat.FirstFailure | chat/chat.go:282-312 | every entry before the index decodes, and the entry at the index fails |
| Chat.Slots | chat/chat.go:280-312 | a slot per entry; a slot is filled exactly when its entry and every earlier one decode, and then holds that entry's decoding |
| Chat.BatchError | chat/chat.go:282-309 | no error exactly when every entry decodes; otherwise the error of an entry that fails after only successes |
| Chat.EntryTimestamp | chat/chat.go:283-311 | a decoded entry keeps the timestamp of its first decode, and its type differs from the bare base message's |
| Chat.DecodeBatch | chat/chat.go:280-314 | the slice has a slot per entry; entries before the first failure are decoded in order, later slots stay nil, and the error is that of the first failure |
| Chat.AllKnownDecoded | chat/chat.go:280-314 | a batch whose entries all decode comes back whole and in order, each entry with the type its tag names |
| Chat.UnknownTagAborts | chat/chat.go:301-309 | an entry with an unknown tag fails the poll, and it and every later slot stay nil |
| Chat.UnknownTagOrder | chat/chat.go:280-314 | with one text message and one unknown entry, the poll fails in either order, and the message survives only when it comes first |
| Chat.ResponseError | chat/chat.go:144-156 | the result is Ok exactly for a response with status 200; a transport error passes through; another status becomes "steam chat: " followed by the status line |
| Chat.ResponseErrorIdempotent | chat/chat.go:144-156 | a small sanity check: checking a response twice is the same as checking it once |
| Chat.LogonOutcome | chat/chat.go:158-201 | no error exactly when the post went through with status 200, decoded and said "OK"; transport, status and decode failures keep the record; a decoded reply is applied by `LoggedOn`, and a status other than "OK" is the error text itself |
| Chat.LoggedOn | chat/chat.go:184-198 | the account id is always taken from the reply; the session fields only when the status is "OK" |
| Chat.Chat.Logon | chat/chat.go:158-201 | the record and the error are those of `LogonOutcome` for the record before the call and the reply to its access token |
| Chat.Chat.Say | chat/chat.go:207-239 | succeeds exactly when the post goes through with status 200 and the reply says "OK"; a transport error is returned as it is; another HTTP status gives "steam chat: " and the status line; an undecodable body gives its decode error; another reply status is returned prefixed with "steam chat: " |
| Chat.Advanced | chat/chat.go:271-273 | the poll counter goes up by one modulo 2^64, the cursor becomes the reply's last message, and nothing else changes |
| Chat.PollidCounts | chat/chat.go:271-273 | below the top of the range, n polls in a row raise the counter by exactly n, and the cursor is the last reply's |
| Chat.Chat.PollForm | chat/chat.go:242-253 | the poll form carries the session, the cursor, the poll counter and the token, with a 35-second timeout, no idle time and account ids requested |
| Chat.Chat.Poll | chat/chat.go:241-315 | transport, status and decode failures change nothing; a decoded reply advances the counter and cursor before its status is checked; a status other than "OK" returns no messages; otherwise the batch result is `Slots` and `BatchError` |
| Chat.New | chat/chat.go:116-128 | the token is kept even when an error comes with it; a token error returns before logon; without one the token is 32 lower-case hex digits, and the record and error are those of `LogonOutcome` from the zero record holding the token |

## Left out

- RSA encryption (`rsa.EncryptPKCS1v15` with `crypto/rand`) is an opaque function parameter that may fail. The model does not prove anything about the ciphertext.
- Encoding the password as base64 for the form is wire encoding. The request record carries the ciphertext bytes.
- Form encoding, HTTP transport and JSON decoding are not modelled. Each exchange is a function from the request record to either a decoded body or the decoder's failure message, together with the status line in the chat protocol.
- The cookie jar's merge rules (domain, path, expiry, replacement) are not modelled. A login-flow reply gives the jar's contents after the client has stored the reply's cookies, and the page fetch in the session-id search is a function from jar to jar.
- `cookiejar.New(nil)` cannot fail in Go, so that error path is absent.
- ClientLogin.Login.Attempt ignores the error from posting the form in Go, and then reads the body of a nil response. A failed post is therefore not an outcome the model gives: its post function always returns a reply.
- ClientLogin.Login.CompleteInteractive does not model standard output: the `fmt.Println` of the server message and its error. Standard input is a finite sequence of lines, and running out of lines is a read error. `fmt.Scanln` splitting a line into words is not modelled: a line is a single value or a read error.
- The unused `dologin` reply fields (`success`, `emailsteamid`, `transfer_parameters`) are decoded by Go and then ignored. Only `success` is kept in the record type.
- `Client.InteractiveLogin`, `input` and `inputf` (terminal prompts and password reading) are not modelled. Neither are `Client.Logout`, `MarshalJSON`, `UnmarshalJSON` and the package `init`, which are I/O and JSON plumbing around the jar. `friends.go` and the `_example` program are not part of this model.
- The `Chat.Error` field is never written by the code and is not modelled.
- `debugRequest` is a debugging aid that dumps traffic and is not modelled.
- The warning printed for an unknown message tag (standard output) is not modelled. Only its consequence is: the failing second decode.
- Chat.DecodeVariant: a JSON key `Self` inside a text message would override the preset flag in Go's decoder. The model keeps the flag the tag implies.
- Encoding.HexDecode reads characters, where Go's `hex.Decode` reads bytes. The two agree on ASCII input. An invalid non-ASCII character is reported as that character, where Go reports its first UTF-8 byte.
- Encoding.QueryUnescape reads characters, where Go's `url.QueryUnescape` reads bytes. The two agree on ASCII input. An escaped byte of 128 or more decodes to the character with that code, so `%C3%A9` gives two characters where Go gives the one character it encodes in UTF-8.
- Chat.MatchAt replaces Go's regular-expression engine with a direct matcher for the one pattern. It reads the page as characters rather than bytes, so invalid UTF-8 on the page is not modelled.
- The chat client's `*http.Client` pointer is not modelled. Its only use is to issue the posts, which are parameters here.
