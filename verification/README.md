# Verified model of the Qoder gateway

The gateway turns one upstream token stream into three client protocols, keeps one shared
login alive, and encodes requests into a private wire form. This project models the parts of
it where a mistake is hard to see, and proves what they promise. `dafny verify dfyconfig.toml`
checks everything.

## What is modelled

**The authentication manager and the shutdown of the process** (`AuthModel`, `AuthInvariant`,
`AuthShape`, `AuthSteps`, `AuthRuns`, `AuthThreads`, `AuthTheorems`, `AuthOffers`,
`AuthLog`, `AuthVisits`, `AuthLogRuns`, `AuthPromises`, `AuthGoodRuns`, `AuthProgress`, `AppShutdown`,
`AppProgress`). Both are transition systems: a state, a program counter per goroutine, one step per lock, file action,
network call or half of a context's `Close`. Network replies, file results, clocks and the
scheduler are arbitrary. The theorems are about every state any interleaving can reach: what
is safe there, that nothing deadlocks, and that every operation and the shutdown itself end. What
each operation promises is told by an onlooker's log of the run: the clock it read, the reply it
accepted, the file it loaded, the saves it tried, the user each context was made from.

**The stream translators** (`Chunks`, `Segments`, `AnthropicStream`, `AnthropicGrammar`,
`ResponsesStream`, `ResponsesGrammar`, `Collectors`, `OpenAICollector`, `FoldAgreement`,
`CallAgreement`, `AnswersAgree`, `Replies`, `ChatClient`, `StreamBody`). The two emitters are classes with
the fields of the program; every method is proved to leave the event list equal to a picture of
the segments built so far. An acceptor and a client, both written without reference to the
emitters, then say that the streams are legal and can be read back. The three aggregating loops
are proved against folds, and the five folds are compared, from the bytes upstream sends to the
calls each client is handed. `Replies` tells finish reason, text and calls of every answer from the
chunks alone.

**The codecs** (`Base64`, `BodyCodec`, `BlockCipher`, `CredentialCodec`, `RsaPadding`). Base64
over any alphabet, PKCS#7, CBC over any invertible block function, and RSA encryption with its
redraw loop over an entropy source that may run dry.

**The object slab of the WASM host** (`ObjectSlab`), refined to a map from handles to values.

**The converters, the event reader and the model resolver** (`Positions`, `UpstreamMessages`,
`MessagesInput`, `ResponsesInput`, `SseParser`, `ModelResolver`), each loop proved equal to a
declarative specification whose conservation, order and round-trip laws are lemmas.

## What the proofs found

- A finish frame that arrives before anything has opened a block makes the Anthropic stream
  emit `message_delta` and `message_stop` without a `message_start` (proxy.go:702-705).
  `AnthropicGrammar.StreamLegal` shows that this is the only way to an illegal stream.
- `collectAnthropic` skips a blank payload before it looks at the event (proxy.go:790-796), the
  streaming readers look at the event first. A finish frame without data therefore ends a
  streamed answer and is overlooked by the aggregated one; `Chunks.ReadersAgree` gives the exact
  condition under which both read the same.
- The five tool-call folds differ on undisciplined input. `CallAgreement.CallsAgreeIff` gives
  the exact condition, a check on the chunks alone, under which their lists are the same, for
  any chunks with any number of choices; what breaks it is never repaired by later chunks.
- The index counter is shared by all choices of a chunk (openai.go:167-181). A call that opens in
  another choice between a call and its last arguments splits that call in two in both chat
  completions (`AnswersAgree.OtherChoiceSplits`).
- Even on disciplined input the five answers can differ: an aggregated Messages answer replaces
  arguments that are empty or no valid JSON, such as those cut off by the length limit, by `{}`
  (proxy.go:883-891), the others hand them on. `AnswersAgree.FiveAgreeIff` gives the exact
  condition from the frames, `AnswersAgree.TruncatedArguments` the shortest such reply.
- Dropping a slab handle twice makes the free list run into itself, and two values then share
  one handle (`ObjectSlab.DroppedTwiceLoops`, `ObjectSlab.DropKeepsListIff`,
  `ObjectSlab.DroppedTwiceAliases`).
- At 2^32 - 1 cells with an empty free list `add` does not return: the loop that pads the heap
  compares the index with a length that wraps (`ObjectSlab.PaddingLoop`). Adds alone get there
  (`ObjectSlab.AddStopsReturning`).
- Three error branches can never be taken: both "not canonical" checks after strict base64
  decoding (native_body_codec.go:39-41, native_codec_helpers.go:20-22) and "not below the
  modulus" (native_runtime_fields.go:175-177).
- A refresh reply without an access token is refused before its refresh token is looked at
  (auth.go:769-775), so the token such a reply carries is dropped, although the one it replaces
  may be spent (`AuthOffers.RefusedReplyDropped`, and `AuthOffers.DroppedToken` for a run).
  `AuthOffers.OfferedKeptIff` tells exactly which refresh tokens are kept.

## Model

| member | source | states |
|---|---|---|
| AuthThreads.NextKeeps | auth.go:197-1012 | The invariant of the manager survives every step of every goroutine, whatever the network, files and clock answer. |
| AuthThreads.RunKeeps | auth.go:197-1012 | So it holds after any schedule of any length. |
| AuthTheorems.NoUseAfterClose | auth.go:247-278 | While a prepare runs on a context, that context is the current one and its Close has not begun. |
| AuthTheorems.ClosedExactlyOnce | auth.go:218-245 | No context is ever closed twice; whenever no goroutine is inside the manager, every context but the current one has been closed once. |
| AuthTheorems.AllClosedAfterClose | auth.go:280-298 | After Close has returned, every context ever made is closed exactly once and none is current. |
| AuthTheorems.CleanMeansSaved | auth.go:436-497 | In a writable manager, at every point where mu is free, a user and a false dirty flag imply that the credential file holds exactly that user. |
| AuthTheorems.CloseSaves | auth.go:467-480 | A Close without error has left the final user in the file. |
| AuthTheorems.NoTokenLost | auth.go:705-725 | The refresh token of the last accepted reply is, whenever mu is free, in memory, and in the file or marked as still to be written. |
| AuthOffers.OfferedKeptIff | auth.go:705-775 | Of all refresh tokens the server sends, in replies with or without an access token, the last one is kept, in memory and in the file or marked as still to be written, exactly when an access token came with it or it was the one already held. |
| AuthOffers.RefusedReplyDropped | auth.go:769-775 | A reply without an access token leaves memory, file and flag as they are; unless its refresh token is the one held, it is kept nowhere. |
| AuthOffers.DroppedToken | auth.go:769-775 | A reachable state in which that has happened to the first refresh. |
| AuthPromises.FreshOrRefreshed | auth.go:669-690 | An ensureFresh that succeeds found the access token good for another 3600 seconds, or without expiry, by the clock it read, or accepted a reply in this very section. |
| AuthPromises.SpentOnlyWhenStale | auth.go:680-741 | A refresh token is sent only by force or for an access token within 3600 seconds of its expiry, only while it is itself in force, and never by a closed or read-only manager. |
| AuthPromises.RefusedOnlyWhenStale | auth.go:669-690 | An ensureFresh fails only when the manager is closed, nobody is logged in or the access token is stale. |
| AuthPromises.PendingSavedFirst | auth.go:482-497 | What could not be saved before is tried again before anything else once its retry is due. |
| AuthPromises.RefreshTakesReply | auth.go:776-806 | A refresh that succeeds leaves exactly the tokens and expiries of the reply in memory, everything else as it was, a new current context made from that user, and has tried to save it. |
| AuthPromises.FailedRefreshRotates | auth.go:705-725 | A refresh that fails leaves the user as it was, but for the refresh token and its expiry of an accepted reply, and has tried to save these if they are new. |
| AuthPromises.LoadTakesFile | auth.go:300-328 | A load that succeeds leaves the user of the file in memory and a new current context made from it; one that read nothing changes nothing. |
| AuthPromises.LoginContext | auth.go:614-664 | After a login the current context is made from the user logged in. |
| AuthPromises.ProfileAskedFor | auth.go:988-999 | A profile is asked for exactly if its login is still in force. |
| AuthPromises.ProfileTaken | auth.go:967-1012 | A profile reply in time replaces, field by field, what it knows better, the organization as a whole, and a save has been tried. |
| AuthPromises.ContextsHaveFields | auth.go:559-594 | No context is ever made for a user without runtime fields. |
| AuthPromises.PreparedOnlyAfterSuccess | auth.go:262-278 | A request is prepared only after a section of the same goroutine that ended well. |
| AuthPromises.ExitLeads | auth.go:262-278 | A prepare goes on exactly if its section succeeded; a device login goes on to ask for the profile. |
| AuthPromises.OutsideLeads | auth.go:263-278 | From outside a section: a prepare is refused exactly when the manager is closed, a login reply becomes the candidate of a login, a profile reply is applied to the login it was asked for. |
| AuthPromises.PrepareUses | auth.go:247-261 | A prepare that has come so far uses the current context exactly if there is one and the manager is open. |
| AuthPromises.ReadOnlyOnlyLoads | auth.go:669-695 | A read-only manager only loads and closes; a writable one never prepares by a load. |
| AuthPromises.CloseTriesToSave | auth.go:280-284 | Close tries to save what is unsaved before it marks the manager closed. |
| AuthPromises.CloseFailsRightly | auth.go:280-298 | Close reports an error only if the user is left unsaved or closing the context failed, and always in the latter case. |
| AuthGoodRuns.GoodSectionSucceeds | auth.go:197-1012 | An operation fails for a cause: where network, files and factory answered well throughout its critical section, it succeeds and what it changed is in the file, unless the manager is closed or read-only, there is no user, refresh token or file, the refresh token has expired, or the login asked about is gone. |
| AuthGoodRuns.GoodCloseSaves | auth.go:280-298 | Close, meeting good answers only, leaves nothing unsaved and has no error to report when it lets mu go. |
| AuthTheorems.FailedRefreshesKeepSession | auth.go:727-807 | Through any sequence of failed and retried refreshes the session and the current context stay those of the last operation that was not a failed refresh. |
| AuthTheorems.FailedRefreshOnlyRotates | auth.go:776-800 | A refresh that fails has changed at most the refresh token and its expiry. |
| AuthTheorems.LoginAllOrNothing | auth.go:614-664 | A failing login leaves user, file, current context and flag as they were and its own context closed; a succeeding one changes all together. |
| AuthTheorems.LateProfileChangesNothing | auth.go:988-1012 | A profile reply for an older login changes nothing. |
| AuthTheorems.NoStagedFileLeft | auth.go:341-421 | Staged files never outlive the critical section that made them. |
| AuthTheorems.ReadOnlyNeverWrites | auth.go:300-328 | A read-only manager never stages or renames a file and is never dirty. |
| AuthProgress.NoDeadlock | auth.go:197-298 | As long as any operation is under way, some goroutine inside one can take its next step whatever the outside answers: mu, ctxMu and a Close waiting for the calls on its context never block each other for good. |
| AuthProgress.StepsDescend | auth.go:197-1012 | Every step that does not wait brings its operation nearer to its end, of which it is at most 130 steps away. |
| AuthProgress.RunsEnd | auth.go:197-1012 | Once no new operation is started, no run of such steps is longer than the distances of all goroutines added up. |
| AppShutdown.RunKeeps | app.go:218-426 | The counts of both wait groups and the order of start and cleanup are kept over every run. |
| AppShutdown.NothingRunsAtClose | app.go:286-300 | When auth.Close or services.Close starts, no handler, refresh tick or goroutine of run is running, on every path into the cleanup. |
| AppShutdown.CleanupCloses | app.go:286-300 | Over every run that has ended, each resource that was made is closed exactly once, services after auth; nothing is closed while anything runs, and the server only listens on an auth manager that was made. |
| AppShutdown.ForcedIfFailed | app.go:405-419 | The server is closed by force exactly if its orderly shutdown failed, before the handlers are waited for. |
| AppShutdown.RunsUntilCancelled | app.go:347-407 | The refresher runs on and admission stays open until the context is cancelled. |
| AppShutdown.AdmittedIff | app.go:224-237 | A handler is let in exactly when admission has not been closed. |
| AppShutdown.NoAdmissionAfterClose | app.go:224-243 | After closeAdmission has returned, no handler is admitted in any continuation. |
| AppProgress.NeverStuck | app.go:286-300 | Unless run has ended, or the server listens and nobody has cancelled, some goroutine or handler can take a step that needs no help from outside: gate, wait groups and context never make them wait in a circle. |
| AppProgress.ShutdownEnds | app.go:405-426 | Once the context is cancelled no run of such steps is longer than its rank, and one that cannot go on has run at its end, with nothing running and everything that was made closed once. |
| AppShutdown.GateCountsHandlers | app.go:224-247 | The gate counts exactly the handlers inside, never goes below zero, and only falls once it is waited for. |
| Chunks.FoldThrough | proxy.go:634-686 | Handling a chunk part by part is the same as handling the list of its atoms. |
| Chunks.ReadersAgree | proxy.go:700-747 | Streaming and aggregating readers take the same chunks and ending from a stream exactly when its first stopping frame is not a blank finish frame, or nothing but skipped frames follows that one up to a finish frame with data. |
| Chunks.BlankFinishOverlooked | proxy.go:790-796 | The concrete stream on which they differ. |
| AnthropicStream.StreamState.CloseBlock | proxy.go:600-607 | Closing keeps fields, segments and sent events in step and adds one stop event if a block is open. |
| AnthropicStream.StreamState.StartBlock | proxy.go:621-628 | A new block always begins, after closing the open one and greeting the client. |
| AnthropicStream.StreamState.OpenBlock | proxy.go:609-615 | A block of the kind is continued if open, begun otherwise. |
| AnthropicStream.StreamState.ToolCalls | proxy.go:659-679 | A list of tool deltas does to the blocks what its atoms do one by one. |
| AnthropicStream.StreamState.HandleChunk | proxy.go:634-686 | The events sent stay the picture of the segments; the segments move by the chunk's atoms. |
| AnthropicStream.StreamState.End | proxy.go:558-573 | finish closes the block, sends the final pair with the mapped stop reason and stops the stream. |
| AnthropicStream.Serve | proxy.go:688-763 | The events of a whole stream are determined by what was read: chunks, then finish, error or end of body. |
| AnthropicGrammar.BlocksPictured | proxy.go:584-628 | Blocks numbered 0, 1, 2, ... with deltas of their own kind pass the acceptor, and a client reads the segments back. |
| AnthropicGrammar.StreamLegal | proxy.go:688-763 | A stream is legal exactly when no finish frame comes before the first block; in every case the client rebuilds all segments. |
| AnthropicGrammar.EmptyFinish | proxy.go:702-705 | What is sent in that one case, and that it is illegal. |
| AnthropicGrammar.OpensUnlessSilent | proxy.go:641-679 | A block is opened by reasoning, text and every tool delta that is not empty, and by nothing else. |
| ResponsesStream.RespStreamState.CloseItem | responses.go:322-367 | The done events repeat the whole text of the open item under its id and index, and the item joins the finished ones. |
| ResponsesStream.RespStreamState.AddItem | responses.go:369-421 | A new item takes the next fresh id and the number of finished items as index, and starts with an empty buffer. |
| ResponsesStream.RespStreamState.Delta | responses.go:431-470 | Each delta also goes to the buffer of the open item's kind. |
| ResponsesStream.RespStreamState.HandleChunk | responses.go:423-476 | The events sent stay the picture of the segments; the segments move by the chunk's atoms. |
| ResponsesStream.RespStreamState.Complete | responses.go:487-509 | The last item is closed and the final event lists every finished item, with the status for the stop reason. |
| ResponsesStream.RespStreamState.Fail | responses.go:511-515 | A failure is one event after what was sent. |
| ResponsesStream.StreamResponses | responses.go:604-635 | The events of a whole stream are determined by chunks and error. |
| ResponsesGrammar.DeltasAddUp | responses.go:423-476 | The deltas of an item add up to the text its done events carry. |
| ResponsesGrammar.RenderedRuns | responses.go:322-421 | Items open one at a time under the count of finished items, and each is closed under its own id and index before the next. |
| ResponsesGrammar.StreamLegal | responses.go:297-304 | Every stream numbers its events 1, 2, 3, ..., passes the acceptor, and its completion lists exactly the done items in order. |
| ResponsesGrammar.ItemIds | responses.go:369-421 | The ids of the items tell their kinds. |
| Collectors.CollectAnthropic | proxy.go:767-891 | The aggregated answer is the fold of the chunks read, with every tool input that is empty or no valid JSON replaced by an empty object, or the error that ended the chunks. |
| Collectors.DeliverTools | proxy.go:883-891 | The loop over the collected calls delivers them in order, ids and names unchanged. |
| Collectors.CollectTools | proxy.go:842-857 | The list with a current call is the fold over the tool deltas. |
| Collectors.CollectResponses | responses.go:637-719 | The same fold, over the channel, with the status for the stop reason. |
| Collectors.UpstreamChunks | openai.go:103-157 | The channel carries the chunks before the finish frame or error, and the error is left for the consumer. |
| OpenAICollector.ToolIndexer.Remap | openai.go:167-181 | Every delta of every choice gets the number of ids seen before the call it belongs to. |
| OpenAICollector.IndexCountsCalls | openai.go:162-181 | Within a list of deltas the index grows by the number of calls opened in between. |
| OpenAICollector.ChunksFlat | openai.go:167-181 | Renumbering chunk by chunk, choice by choice, gives the deltas of a stream the indexes they would get in one list. |
| OpenAICollector.StreamIndexCountsCalls | openai.go:162-165 | Over a whole stream the index grows between two deltas, of whatever chunks, by the number of calls opened in between, so a client that gathers by index separates them. |
| OpenAICollector.StreamOAI | openai.go:367-406 | Every chunk is written renumbered, in order, then the error if there is one, then the end mark. |
| OpenAICollector.CollectOAI | openai.go:408-474 | The map and the order list hold the calls gathered under rising indexes; the answer is that fold. |
| ChatClient.ClientRebuilds | openai.go:160-165 | A client that gathers by index what streamOAI writes holds the reasoning, text, calls and finish reason of the aggregated chat completion, whatever upstream sent. |
| FoldAgreement.ProseAgrees | proxy.go:641-658 | Reasoning and text are the same in all five folds, with no condition. |
| CallAgreement.CallsAgreeIff | proxy.go:659-679 | For any chunks, in any number of choices: the five call lists of a reply are the same exactly when every tool delta passes a check on what came before it and no call is left waiting for its name or lagging behind. |
| CallAgreement.BrokenStep | proxy.go:841-857 | Once the lists differ in another way than by a waiting or lagging call, they differ after every further delta of any choice. |
| CallAgreement.DisciplineSuffices | openai.go:162-165 | Calls that open with id and name, go on with neither and are not interrupted, not even by a call of another choice, pass that check, at the end and at every point before. |
| AnswersAgree.SameProse | responses.go:423-476 | End to end: rebuilt blocks, completed items and the aggregated answers say the same. |
| AnswersAgree.FiveAgreeIff | proxy.go:690-891 | From the frames: all five requests are answered with the same calls exactly when no answer is an error, the chunks pass the check, nothing read beyond a blank finish frame opens a call, and the inputs delivered are the arguments sent. |
| AnswersAgree.SameCalls | proxy.go:883-891 | Under the discipline, with readers that agree and no error, the five answers list the same calls exactly when the arguments of every call are `{}` or non-empty valid JSON. |
| Replies.StreamedReason | convert.go:551-566 | A streamed Messages answer closes with the word for the reason of the last chunk whose first choice tells one that is neither empty nor "null", by the literal table of words. |
| Replies.CompletedStatus | responses.go:487-509 | A streamed Responses answer is incomplete exactly when that reason is "length". |
| Replies.AggregatedReasons | openai.go:416-474 | The same reason, by the same tables, in the three aggregated answers, with "stop" for none in a chat completion. |
| Replies.QuietReasonsIgnored | proxy.go:679 | A finish reason that is empty or "null" changes none of the five answers. |
| Replies.SpokenToldBy | proxy.go:641-658 | Text and reasoning are those of the first choices, chunk after chunk. |
| Replies.CallsSpelled | proxy.go:841-857 | Whatever upstream sent, the aggregated calls are one per delta with an id or name, under these, with all arguments up to the next such delta. |
| Replies.FiveSpelled | proxy.go:690-891 | Where the five answers agree, these are their calls. |
| AnswersAgree.ReadsOn | proxy.go:790-796 | collectAnthropic reads what the others read and then what follows a blank finish frame. |
| AnswersAgree.TruncatedArguments | proxy.go:883-891 | A disciplined call cut off by the length limit on which the aggregated answer differs. |
| AnswersAgree.OtherChoiceSplits | openai.go:167-181 | An id in another choice between a call and its last arguments: two calls by index, one everywhere else. |
| AnswersAgree.RepeatedNameDiffers | responses.go:454-463 | A name repeated without an id: one call in the Anthropic stream and by index, two, of two kinds, for the other three. |
| Base64.DecodeEncode | native_body_codec.go:12-34 | Whatever is encoded decodes to itself, over any sound alphabet. |
| Base64.EncodeDecode | native_codec_helpers.go:12-24 | Strict decoding accepts encodings only. |
| Base64.EncodesGroup | native_body_codec.go:12-34 | Every three bytes become the four digits that make the same number of 24 bits, the first byte and digit highest. |
| Base64.EncodesRest | native_body_codec.go:12-34 | One or two bytes left over become a last group with two or one padding characters, its unused bits zero. |
| BodyCodec.QoderSound | native_body_codec.go:10-12 | The private alphabet has 64 distinct digits, none the padding or a line break. |
| BodyCodec.SwapOuterThirds | native_body_codec.go:49-56 | The three appends exchange the outer thirds. |
| BodyCodec.SwapTwice | native_body_codec.go:49-56 | The swap is its own inverse at every length. |
| BodyCodec.EncodedAt | native_body_codec.go:16-20 | Where each character of a body stands in the base64 text. |
| BodyCodec.EncodedNoBreaks | native_body_codec.go:16-27 | An encoded body never contains a line break. |
| BodyCodec.DecodeBody | native_body_codec.go:22-43 | A body decodes to a text exactly when it is the encoding of that text; the canonical check never refuses. |
| BlockCipher.Pkcs7Pad | native_codec_helpers.go:26-40 | The loop appends n bytes n up to the next multiple; block size and length errors included. |
| BlockCipher.Pkcs7Unpad | native_codec_helpers.go:42-63 | Unpadding yields a text exactly when the input is that text padded. |
| BlockCipher.PadLengthUnique | native_codec_helpers.go:30-38 | Only one number of padding bytes fits. |
| BlockCipher.XorBlockBack | native_codec_helpers.go:65-103 | Exclusive or with one block undoes itself. |
| BlockCipher.CbcDecryptsEncrypted | native_codec_helpers.go:77-79 | CBC decryption undoes encryption for every invertible block function. |
| BlockCipher.CbcEncryptsDecrypted | native_codec_helpers.go:96-98 | And the other way round. |
| BlockCipher.ByteXorBits | native_codec_helpers.go:65-103 | Each bit of an exclusive or is set exactly when one of the two bits is. |
| BlockCipher.EncryptsBlock | native_codec_helpers.go:77-79 | Block j of the ciphertext is the cipher of block j of the plaintext masked with block j - 1 of the ciphertext, the first with the initial vector. |
| BlockCipher.DecryptsBlock | native_codec_helpers.go:96-98 | The matching statement for decryption. |
| BlockCipher.ChainedIff | native_codec_helpers.go:77-79 | The ciphertext is the only text chained to the plaintext in that way. |
| BlockCipher.AesCbcEncryptPkcs7 | native_codec_helpers.go:65-80 | Encryption pads, then chains block by block; key, vector and length errors included. |
| BlockCipher.AesCbcDecryptPkcs7 | native_codec_helpers.go:82-103 | Decryption yields a text exactly when the input is chained to that text padded. |
| CredentialCodec.DecodeStrictStdBase64 | native_codec_helpers.go:12-24 | Text decodes exactly when it is an encoding; the canonical check never refuses. |
| CredentialCodec.Encrypt | native_credential.go:16-29 | A plaintext becomes its envelope under the machine key: base64 of a text chained to the plaintext padded, the key serving as initial vector. |
| CredentialCodec.Decrypt | native_credential.go:31-57 | A blob decrypts to a plaintext exactly when it is, byte for byte, the envelope of that plaintext and the plaintext is valid UTF-8. |
| CredentialCodec.EnvelopeFits | native_credential.go:16-29 | Every envelope a Go string can hold is one that encryption makes. |
| CredentialCodec.EnvelopeInjective | native_credential.go:16-29 | Different plaintexts have different envelopes. |
| RsaPadding.RedrawByte | native_runtime_fields.go:154-165 | One byte is redrawn with single reads until it is not zero, or the source is dry. |
| RsaPadding.SettlePadding | native_runtime_fields.go:154-165 | The bytes are settled from left to right. |
| RsaPadding.SettlePatches | native_runtime_fields.go:145-165 | The redraws read no more than needed: one byte that is not zero per zero of the bulk read, taking the places of the zeros in order. |
| RsaPadding.ParseBlock | native_runtime_fields.go:166-167 | 00 02 PS 00 M has one reading, M. |
| RsaPadding.BlockBelow | native_runtime_fields.go:169-172 | The block is below every modulus of its length. |
| RsaPadding.FillBytesValue | native_runtime_fields.go:173-174 | A value below the modulus fills exactly k bytes and reads back. |
| RsaPadding.BlockReadsBack | native_runtime_fields.go:166-174 | The message is found again in the integer that is encrypted. |
| RsaPadding.ValueAppend | native_runtime_fields.go:169-174 | Integers are read big-endian. |
| RsaPadding.ExpSum | native_runtime_fields.go:173 | The power is that of repeated multiplication. |
| RsaPadding.RsaEncryptPkcs1v15Exact | native_runtime_fields.go:131-181 | On success the result is, in k bytes, the block 00 02 PS 00 M to the power of e modulo n, with PS as drawn, free of zeros and at least 8 long; the only errors are key, length and entropy. |
| RsaPadding.RsaDecrypts | native_runtime_fields.go:166-174 | Whoever has the inverse exponent reads the message out of the result. |
| ObjectSlab.AddRefines | tools/wasm_oracle/backend.go:76-92 | add returns a handle neither live nor reserved, binds it and changes no other. |
| ObjectSlab.PaddingLoop | tools/wasm_oracle/backend.go:87-89 | The padding loop of add is skipped exactly while the list has a cell or the heap has room, and never left once it has none. |
| ObjectSlab.AddStopsReturning | tools/wasm_oracle/backend.go:76-92 | A run of adds reaches the heap on which the next add does not return. |
| ObjectSlab.DropRefines | tools/wasm_oracle/backend.go:93-99 | drop of a live handle unbinds it and puts its cell at the head of the list. |
| ObjectSlab.GetRefines | tools/wasm_oracle/backend.go:100-105 | get returns the value bound to a live handle. |
| ObjectSlab.ChainUnique | tools/wasm_oracle/backend.go:32-34 | The array and heapNext alone determine the free list. |
| ObjectSlab.DroppedTwiceLoops | tools/wasm_oracle/backend.go:93-99 | After a second drop the numbers in the cells lead from the cell through those before it, and back. |
| ObjectSlab.DropKeepsListIff | tools/wasm_oracle/backend.go:93-99 | drop keeps the list acyclic exactly when the handle is not on it already. |
| ObjectSlab.DroppedTwiceAliases | tools/wasm_oracle/backend.go:93-99 | A handle dropped twice in a row is given out twice. |
| ObjectSlab.RunRefines | tools/wasm_oracle/backend.go:76-106 | Over every run that drops only live handles the slab is a plain handle map and the reserved cells are untouched. |
| ObjectSlab.WasmBackend.Add | tools/wasm_oracle/backend.go:76-92 | The method does what the specification of add says and keeps the free list in order. |
| ObjectSlab.WasmBackend.Drop | tools/wasm_oracle/backend.go:93-99 | The method does what the specification of drop says; for a handle not on the list it keeps the list in order. |
| ObjectSlab.WasmBackend.Take | tools/wasm_oracle/backend.go:106 | The value read before the drop is returned, and the list is kept as by a drop. |
| SseParser.ReadSse | proxy.go:462-510 | The loop delivers what the line-by-line specification delivers. |
| SseParser.FeedPrinted | proxy.go:462-510 | Printed frames are delivered in order up to the first refused one, then reading goes on with what follows. |
| SseParser.PrintedRead | proxy.go:575-582 | Frames printed with LF or CRLF are read back, up to the first the callback refuses. |
| SseParser.LastBlankMissing | proxy.go:495-508 | Without the final blank line the last frame is delivered at end of file and lost on a read error. |
| SseParser.LinesAre | proxy.go:474-477 | The lines are the text, cut after every line feed and nowhere else. |
| SseParser.TrimSpaceIs | proxy.go:486 | Trimming cuts off space at both ends, all of it and nothing else. |
| SseParser.ManyLinesRead | proxy.go:487-493 | A frame of several data lines, each with or without a space after the colon, is delivered with its lines joined by line feeds. |
| SseParser.EventsJoined | proxy.go:482-486 | A second event field is joined to the first by a space. |
| SseParser.OthersPassed | proxy.go:478-494 | A field of another name or a comment is passed over. |
| StreamBody.DeliveredStops | proxy.go:462-510 | For any bytes, a callback is handed the frames of the body up to the first it refuses, however the body ends. |
| StreamBody.BodyRead | proxy.go:700-747 | For any bytes, what a callback that stops at finish frames and errors takes is what reading all frames of the body takes, for both orders of looking at event and data. |
| StreamBody.PrintedBody | proxy.go:790-822 | Printed frames, with LF or CRLF and at end of file or read error, are read as those frames. |
| StreamBody.BodyAgreeIff | proxy.go:690-891 | The exact condition for five equal answers, from the bytes of the body and the read error. |
| UpstreamMessages.EnsureCacheMarker | convert.go:281-300 | A prompt without a marker gets exactly one, on the last cacheable part outside tool results; any other stays as it is. |
| UpstreamMessages.EnsuredUnique | convert.go:281-300 | That determines the outcome. |
| UpstreamMessages.EnsuredTwice | convert.go:281-300 | A second time changes nothing; no message or call comes or goes. |
| MessagesInput.MessagesToUpstream | convert.go:169-239 | Every turn is converted in order; the first content that does not parse is the error. |
| MessagesInput.ConvertedRight | convert.go:169-273 | Field by field: each tool message has the call id and text of its tool_result block, each call id, name and input of its tool_use block, each part text or address and marker of its block, the contents are the joined texts or the parts; one for one, in order, turn after turn. |
| MessagesInput.UserContentFromBlocks | convert.go:244-269 | Text and image blocks become parts in order; the flat content is the joined text unless there is an image. |
| MessagesInput.ToolsKept | convert.go:176-233 | Every tool result of a user turn and every tool use of another turn comes out once, in order. |
| MessagesInput.ToolsFollow | convert.go:185-202 | The tool messages of a turn stand together, directly after everything that came of the turns before. |
| ResponsesInput.ConvertItems | responses.go:112-167 | The pass with a pending message makes one assistant message of each maximal run that starts with a call. |
| ResponsesInput.RespToUpstream | responses.go:92-169 | Missing, single, list and malformed input; the cache marker is ensured at the end. |
| ResponsesInput.CallsKept | responses.go:147-156 | The tool calls of all output messages are the function_call items in input order. |
| ResponsesInput.TurnsKept | responses.go:120-159 | Messages and tool outputs come out once each, in input order. |
| ResponsesInput.CallAtHome | responses.go:147-156 | Each call is found at its place in its message. |
| ResponsesInput.FieldsKept | responses.go:112-168 | Field by field: calls, messages, tool outputs and instructions carry what their items carry, one for one and in order, told by the literal item types and roles. |
| ResponsesInput.CallersHoldCalls | responses.go:147-156 | A message with calls is an assistant message with empty content and nothing else. |
| ResponsesInput.SentAtHome | responses.go:127-159 | A turn or tool output makes the message at its place. |
| ResponsesInput.HomesRise | responses.go:112-167 | Messages stand in the order of their items, one for each but for calls that share theirs. |
| ResponsesInput.HomesAll | responses.go:112-167 | Every message is some item's. |
| ResponsesInput.SharedIff | responses.go:147-164 | Two calls share a message exactly when only calls, reasoning and item references lie between them. |
| ModelResolver.NewModelResolver | proxy.go:87-121 | Models under their keys, and under the names that are theirs alone and no other model's key. |
| ModelResolver.NamesUnique | proxy.go:99-114 | The order in which the map is walked does not matter. |
| ModelResolver.PublicIdFinds | proxy.go:123-143 | A public id finds its model again. |
| ModelResolver.ResolvesIff | proxy.go:145-187 | For any name a client sends: the answer has the key of a model exactly when the identifier asked for, by mapping, name or default, names it, or the one for the large context does where that is wished for and lacking. |
| ModelResolver.AnswerIsModel | proxy.go:154-195 | The answer is the model itself, in lockdown with its whole window where the large context is wished for, or one made up for a key that no model has. |
| ModelResolver.NameIsCut | proxy.go:147-153 | The bare name stands between the prefix and the suffix, each cut off where it is there. |
| ModelResolver.AsksForOne | proxy.go:166-180 | Every name leads to exactly one identifier. |
| ModelResolver.LockedResolvesIff | proxy.go:154-164 | In lockdown: exactly when the bare name names the model, it is enabled and has the context wished for. |
| ModelResolver.PublicIdResolvesIff | proxy.go:145-187 | For any catalogue and mapping, exactly when resolve(publicID(m)) yields the key of m, in lockdown and out of it, told from the catalogue, the mapping and the id. |
| ModelResolver.PublicIdResolves | proxy.go:145-187 | With identifiers that carry neither prefix nor suffix and no mapping that steps in, it always does. |
| ModelResolver.PublicIdInLockdown | proxy.go:154-164 | In lockdown, whatever the mapping, it does if m is enabled. |
| ModelResolver.PublicIdsDiffer | proxy.go:131-143 | Two models never share a public id. |

## Left out

- The manager (auth.go), its contexts (native_context.go) and the shutdown (app.go) are transition systems on values rather than classes, because what they promise is about interleavings; aliasing of user records is modelled by record names.
- In a writable manager `load` is a start-up step: a later call would overwrite an unsaved rotation. In a read-only manager it may run at any time.
- `save` and `loggedIn` of the manager, polling intervals and messages of the login flows; a login is one arbitrary user that arrives at an arbitrary time.
- The retry clock of a dirty credential is an arbitrary choice at each attempt; removing a staged file is taken to succeed, as a rename is taken to happen entirely or not at all.
- JSON is taken as parsed or printed; a frame carries what its payload turned out to be, an item or block what its content turned out to be. Whether a text is JSON is a parameter, and tool input that is printed again keeps its text, white space included.
- Usage and billing figures, logging, message ids, timestamps, the rewriting of error texts for the public and the `type` of a tool call.
- Cancellation of a request while chunks are read; channels are lists.
- The tool deltas a chunk holds are values; `remap` returns the renumbered chunk instead of writing into it.
- AES and UTF-8 are parameters: any invertible block function, any predicate.
- The loop at the end of `add` (tools/wasm_oracle/backend.go:87-89) is not part of the method, as it is never entered by an add that returns.
- ObjectSlab.AddRefines: speaks of an add that returns; at 2^32 - 1 cells with an empty free list it does not (PaddingLoop).
- AppProgress.ShutdownEnds: takes every handler inside to leave and every single call of the shutdown, of `Close` and, once the server is being shut down, of `listenAndServe` to return.
- `oaiToUpstream`, which maps one message to one.
- HTTP handlers, headers, sockets, timers, configuration, endpoint constants, GCM, HKDF, the model cache and the tooling around the WASM oracle.
