# Verification of the attestation proxy

A Dafny model of the hard parts of a proxy that attests confidential inference backends and
encrypts requests to them end to end. Run `dafny verify dfyconfig.toml` in this directory.

Cryptography, the network, clocks and text formats are parameters. AEADs, HKDF, seals and
verifiers are functions; the laws a result needs are hypotheses of that result (`Lawful`,
`OpensOnlySent`, `Matches`, `HashSized`), stated about what was actually sent where that is
possible, and shown to be satisfiable where they could look too strong. Network replies and
arrival orders are inputs, so every statement holds for all of them.

| file | component |
|---|---|
| Bytes, EhbpFraming, EhbpReaders, EhbpSession | EHBP chunk framing: wire format, the two stateful readers, the response key schedule |
| Json, FieldPolicy, Decryption, Logprobs, DecryptedValues, FailClosed | field-level decryption of chat objects in place, what it yields, and what success guarantees |
| Encryption, RoundTrip | field-level encryption for NearCloud, and when decryption undoes it |
| ToolCallMerge, Sse, Client, Relay, StreamAgreement | streaming and reassembly of encrypted chat responses, and their agreement |
| ChutesRelay | the Chutes event stream and blob |
| ProxyModel, ProxyLog, ProxyRun, Proxy | the request state machine with its caches, marks, sessions and retry loops, the history it keeps, and runs of it |
| Sets, TtlCache, SpkiCache, Jwks | bounded caches and the single-flight key-set cache |
| EventLog, Dsse, Rekor, Spdm, Poc, Report | attestation evidence and reports |

Specifications are functions and predicates on values. The methods follow the loops and in-place
updates of the code and are proved equal to them; the lemmas prove what the specifications promise.
In `Proxy`, the ghost `log` records every request begun, report it is judged by, key checked, body
posted, response relayed and mark set or lifted. `Valid` says that the checked keys and the marks
are exactly what the log amounts to, that each event was good given the events before it
(`ProxyLog.GoodAfter`), and that a cached report that lets E2EE requests through comes with a cached
key whose REPORTDATA check succeeded. What a request comes to is a function of the state and of what
it receives (`ProxyModel.RequestEnd`), which the two nested retry loops are proved to compute, and so
is what its client sees (`ProxyModel.AnswerIs`): nothing is passed on without a `Response` in the log.

## Where the code does less than one might expect

- A response of exactly 2^31 - 1 EHBP chunks ends in an overflow error instead of EOF
  (`EhbpFraming.RoundTripIff`), and a cut inside a length prefix is a clean EOF
  (`EhbpFraming.DecodeTruncated`), so truncation claims speak of prefixes.
- Authentication failure inside an EHBP body surfaces while the unwrapped body is relayed, as a
  read error; it ends the request but sets no failure mark (`ProxyModel.UnwrappedSetsNoMark`).
  `Proxy.Server.HandleRequest` says exactly which replies set one.
- Under the NearCloud policy a plaintext `function_call` or `logprobs` that is not an object gets
  through (`FailClosed.FunctionCallUnopened`, `FailClosed.LogprobsUnopened`). What else gets through is
  listed exactly in `FailClosed.NearCloudChunkIff`.
- Of a chunk with several choices only the first is decrypted, and checked (`FailClosed.OthersKept`).
- An empty plaintext is not restored by decryption (`RoundTrip.EncryptDecryptIff`). Streaming passes
  such a ciphertext on; reassembly refuses it (`StreamAgreement.RefusedIff`). `StreamAgreement.ReassemblesIff`
  is the exact condition for a whole stream.
- A short digest in the event log and its zero-padded form are indistinguishable
  (`EventLog.PaddingInvisible`).
- The Proof-of-Cloud outcome can depend on arrival order for every quorum below the number of peers,
  if there are two or more, and for no other (`Poc.OrderIrrelevantIff`). A configured quorum of zero
  makes the client panic when every peer fails (`Poc.CrashIff`).
- Shutdown between two fetches breaks the refetch spacing, and so does a seventeenth URL; nothing else
  does (`Jwks.SpacedIff`, `Jwks.CloseStoresLost`).
- A signing key is cached even when its binding failed, if the report is not blocked
  (`Proxy.Server.CacheSigningKey`); it is never used, because no such report activates E2EE.
- A pinned chat handler's session is not wiped when its reply is refused or is an upstream error
  (`Proxy.Server.HandlePinnedChat` has the exact condition, `ProxyModel.PinnedErrorLeaks` an input);
  the non-chat handler does wipe it in the second case.
- `Cache.Put` restarts the TTL and each success stores the report again, so a report's age runs from
  its last use, not from its attestation (`Proxy.Server.HandleRequest`).

## Model

| member | source | states |
|---|---|---|
| EhbpFraming.NoncesAgree | internal/e2ee/ehbp.go:248-255 | The reader's counter folded into the last eight bytes of the base nonce is the nonce of section 5.2 of RFC 9180 for every 64-bit index: byte for byte, its bits are those in which the base and the big-endian counter differ. |
| EhbpFraming.SenderNonceBits | internal/e2ee/ehbp.go:98-104 | Every byte of the sender's nonce has exactly the bits in which the base nonce and the twelve-byte big-endian message number differ. |
| EhbpFraming.ReaderNonceBits | internal/e2ee/ehbp.go:248-255 | The reader's nonce keeps the first four bytes of the base; each later byte has exactly the bits in which base and counter differ. |
| Bytes.XorBit | internal/e2ee/ehbp.go:253-255 | Exclusive or, bit by bit: a bit is set exactly if the two bits in its place differ. |
| EhbpFraming.NoncesDistinct | internal/e2ee/ehbp.go:248-255 | Nonces of different message numbers differ, for one base nonce. |
| EhbpFraming.FrameLayout | internal/e2ee/ehbp.go:106-109 | On the wire a frame is the length of the ciphertext in four bytes, most significant first, and the ciphertext. |
| EhbpFraming.StepIs | internal/e2ee/ehbp.go:219-262 | One step of the reader, on any bytes: the four-byte length decides between too large, short and a frame, and a frame is opened under the nonce of its own index. |
| EhbpFraming.DecodeEncode | internal/e2ee/ehbp.go:207-269 | Fewer than 2^31 - 1 frames written under one key and base nonce decode to exactly the chunks sent, then a clean end. |
| EhbpFraming.DecodeEncodeOverflow | internal/e2ee/ehbp.go:219-223 | With 2^31 - 1 frames or more the reader delivers the first 2^31 - 1 chunks and then reports overflow, even where the wire ends right there. |
| EhbpFraming.RoundTripIff | internal/e2ee/ehbp.go:207-269 | The body comes back whole with a clean end if and only if there are fewer than 2^31 - 1 chunks. |
| EhbpFraming.DecodeTruncated | internal/e2ee/ehbp.go:225-246 | A wire cut at any byte yields exactly the chunks whose frames survived whole; the cut is reported except inside a length prefix, which reads as a clean end. |
| EhbpFraming.OpenedIsSent | internal/e2ee/ehbp.go:248-262 | If only the sent ciphertexts open at their own nonces, what the reader opens at an index is what was sent at that index. |
| EhbpFraming.PrefixSafety | internal/e2ee/ehbp.go:219-262 | On arbitrary wire bytes, under that hypothesis, the chunks delivered are a prefix of the chunks sent. |
| EhbpFraming.OpensOnlySentSatisfiable | internal/e2ee/ehbp.go:248-262 | The hypothesis of PrefixSafety can be met for every list of sent chunks. |
| EhbpReaders.ReadFull | internal/e2ee/ehbp.go:225-246 | Reading a fixed number of bytes across arbitrary short reads: all of them in order, or everything left and the kind of end. |
| EhbpReaders.RequestReader.Read | internal/e2ee/ehbp.go:78-122 | One call with any buffer gives out as much as fits of what is pending, after sealing at most one more chunk of the body if nothing was: the frames emitted grow by exactly those bytes, and a nonempty buffer without an error gets at least one. |
| EhbpReaders.RequestReader.NextFrame | internal/e2ee/ehbp.go:91-121 | One underlying read becomes one sealed frame at the next sequence number; end and errors stop the reader. |
| EhbpReaders.CounterNonce | internal/e2ee/ehbp.go:248-255 | The in-place loop computes the reader nonce: the first four bytes are the base's, and each other byte differs from it in exactly the bits of the counter. |
| EhbpReaders.ResponseReader.Read | internal/e2ee/ehbp.go:207-269 | One call with any buffer gives out as much as fits of what is pending, after opening at most one more chunk if nothing was; without an error it gives out bytes or has opened a chunk, which may be empty. On a clean transport an error comes only when everything decodable was delivered, and it is the specified one. |
| EhbpReaders.ResponseReader.NextChunk | internal/e2ee/ehbp.go:219-268 | One frame is read, opened at its own index, and the index advances by one. |
| EhbpReaders.ResponseReader.ReadCiphertext | internal/e2ee/ehbp.go:225-246 | Length prefix and ciphertext, with the limits and the error cases of the code: a partial prefix reads as EOF, and a failing transport inside the prefix is the one error that does not end the stream. |
| EhbpReaders.ResponseReader.Close | internal/e2ee/ehbp.go:271-278 | A closed reader delivers nothing more. |
| EhbpReaders.EmittedBound | internal/e2ee/ehbp.go:78-122 | A request reader in any reachable state has given out fewer bytes than the frames of its whole body have. |
| EhbpReaders.DeliveredBound | internal/e2ee/ehbp.go:207-269 | A response reader on a clean transport has given out fewer bytes and chunks than its whole wire decodes to. |
| EhbpReaders.PlainsArePrefix | internal/e2ee/ehbp.go:207-269 | For a reader in any reachable state, on any bytes at all, the chunks authenticated so far are a prefix of the chunks sent. |
| EhbpReaders.DeliveredIsPrefix | internal/e2ee/ehbp.go:207-269 | For a reader in any reachable state, the plaintext handed out over all its calls is a prefix of the plaintext sent. |
| EhbpReaders.DrainRequest | internal/e2ee/ehbp.go:78-122 | Reading the request side with any buffer sizes gives the encoding of chunks whose concatenation is the body; as many nonempty buffers among them as the frames have bytes, and one more, reach the end. |
| EhbpReaders.DrainResponse | internal/e2ee/ehbp.go:207-269 | Reading the response side with any buffer sizes gives the decoded chunks and the specified last result; as many nonempty buffers among them as there are plaintext bytes and chunks, and one more, reach it. |
| EhbpReaders.Transfer | internal/e2ee/ehbp.go:78-269 | Both readers end to end: for every split of the body into reads, all buffer sizes on both sides with enough nonempty ones among them, and every split of the wire, the body comes back byte for byte, then EOF, if it makes fewer than 2^31 - 1 chunks; otherwise a prefix and an overflow. |
| EhbpSession.Session.DecryptResponse | internal/e2ee/ehbp.go:133-184 | A reader is made exactly when the nonce has 32 bytes and the secret exports; its key and base nonce are expanded from the secret extracted with the encapsulated key and the nonce as salt. |
| EhbpSession.Session.Zero | internal/e2ee/ehbp.go:190-194 | After wiping, the session can no longer derive response keys. |
| EhbpSession.ResponseReadsBack | internal/e2ee/ehbp.go:133-184 | A response sealed under the derived keys reads back chunk for chunk. |
| EhbpSession.SaltBinds | internal/e2ee/ehbp.go:149-155 | Two responses have one salt exactly if they have the same encapsulated key and nonce, so their derived secrets agree only then, or if the extraction collides on their own two salts. |
| EventLog.ReplayEventLog | internal/attestation/eventlog.go:14-40 | The registers start as 48 zero bytes, and every entry replaces its own with the hash of its old value followed by the zero-padded digest; on an invalid log the error names the first bad entry and the registers hold the replay before it. |
| EventLog.OtherRegistersIrrelevant | internal/attestation/eventlog.go:17-37 | The digests of a register are those of the log restricted to that register. |
| EventLog.RegisterCommits | internal/attestation/eventlog.go:33-37 | Equal register values mean equal digest lists, or a returned hash collision or preimage of 48 zero bytes. |
| EventLog.LogCommitment | internal/attestation/eventlog.go:14-40 | Two logs that replay to the same four registers have equal padded digests in every register, or a returned break of the hash. |
| EventLog.PaddingInvisible | internal/attestation/eventlog.go:27-31 | The commitment is to padded digests only: a digest and its zero-padded form replay alike. |
| Dsse.BuildPae | internal/attestation/rekor.go:602-614 | The buffer is "DSSEv1", the length of the type in decimal, the type, the length of the payload in decimal and the payload, between single spaces. |
| Dsse.FieldUnique | internal/attestation/rekor.go:602-614 | A length-prefixed field followed by anything determines the field and the rest, whatever bytes they hold. |
| Dsse.PaeInjective | internal/attestation/rekor.go:602-614 | Equal encodings have equal payload types and payloads, for all byte strings. |
| Rekor.SelectProvenance | internal/attestation/rekor.go:168-260 | The first Fulcio entry wins; without one the first bare key or plain certificate; without any the error of the last entry; and no entries at all is its own outcome. |
| Rekor.InsertionHarmless | internal/attestation/rekor.go:168-260 | Inserting entries without a Fulcio certificate, anywhere, never changes a choice that rests on a Fulcio entry. |
| Spdm.VerifySpdmEvidence | internal/attestation/nvidia_eat.go:245-327 | For every byte string the walk stays in bounds; it accepts exactly when the bytes are a request with the expected nonce followed by a well-formed response whose signature verifies over all bytes before it. |
| Spdm.EvidenceLocated | internal/attestation/nvidia_eat.go:245-327 | For every well-formed request and response the parser finds exactly that signature and takes exactly the preceding bytes as signed. |
| Spdm.Dissect | internal/attestation/nvidia_eat.go:252-315 | Whatever the parser locates is the evidence of some well-formed request and response. |
| Spdm.EvidenceUnambiguous | internal/attestation/nvidia_eat.go:252-315 | One byte string is the evidence of at most one request and response. |
| Poc.CollectNonces | internal/attestation/poc.go:250-276 | Reading answers as they arrive: stop at the first refusal, stop at quorum, else the last error or a shortfall. |
| Poc.CheckMachineIdConsistency | internal/attestation/poc.go:166-177 | No error exactly when all machine ids are nonempty and equal; otherwise the first disagreement. |
| Poc.CheckMonikerUniqueness | internal/attestation/poc.go:182-192 | No error exactly when monikers are pairwise distinct; otherwise the first repeated one. |
| Poc.ChainSignatures | internal/attestation/poc.go:297-379 | The stage-2 loop: one request to each peer in turn, all with every nonce, the first without partial signatures and each later one with exactly what the reply before it signed; the last reply decides, and a registration is one whose token passed every check. |
| Poc.VerifyClaims | internal/attestation/poc.go:78-137 | Accepted claims decode from the token, name the quote and the expected machine, and lie in the time window. |
| Poc.CheckQuote | internal/attestation/poc.go:199-380 | The whole client, for any arrival order of stage-1 answers and any configured quorum, computes the run that RunForwards characterizes. |
| Poc.RunForwards | internal/attestation/poc.go:199-380 | A refusal in time, or a missing quorum, ends the run before stage 2. Otherwise the gathered nonces are answers of their peers, these are asked in URL order if the nonces are consistent, each request carries every moniker with its nonce and exactly the signatures of the reply before it, and the last reply decides. |
| Poc.ChainForwards | internal/attestation/poc.go:310-379 | From any point of the chain on, with what was sent and signed so far. |
| Poc.CollectIff | internal/attestation/poc.go:250-276 | Stage 1 is refused exactly if a refusal arrives before the quorum is reached, falls short exactly if too few nonces arrive, and otherwise gathers the first ones. |
| Poc.SortOrders | internal/attestation/poc.go:279-285 | Sorting yields the same entries in ascending order of URL, equal URLs included. |
| Poc.SortedUnique | internal/attestation/poc.go:279-285 | With distinct URLs there is one sorted order, so sorting removes the arrival order. |
| Poc.RegisteredQuorum | internal/attestation/poc.go:199-380 | A registered result rests on quorum-many distinct monikers, on at least one whatever the quorum, and on one nonempty machine id, which is the one reported. |
| Poc.Confluence | internal/attestation/poc.go:199-380 | With quorum equal to the number of peers and distinct URLs, the outcome class and the stage-2 requests do not depend on the arrival order. |
| Poc.OrderIrrelevantIff | internal/attestation/poc.go:199-380 | For distinct peers the outcome class is the same for all arrival orders, of all answers and in all worlds, if and only if the quorum is at least the number of peers, or there is at most one peer. |
| Poc.SmallQuorumDisagrees | internal/attestation/poc.go:250-265 | For every smaller quorum: that many acceptances and refusals by the other peers are refused or fail in stage 2, as the first arrival decides. |
| Poc.CrashIff | internal/attestation/poc.go:269-298 | The run ends in the panic of an empty nonce list exactly for a quorum of zero or less when every peer failed. |
| TtlCache.Cache.Get | internal/attestation/attestation.go:259-270 | A hit is the latest Put with no later Delete, within the TTL. As long as time does not run backwards, a miss means that there is none, that it has expired, or that a Put into a full cache evicted it as an oldest live entry. |
| TtlCache.Cache.Put | internal/attestation/attestation.go:274-316 | The entry is written with its time. A full cache first loses exactly its expired entries, and then exactly one oldest entry if 1000 are still left; nothing else changes. |
| TtlCache.Cache.PruneExpired | internal/attestation/attestation.go:280-290 | Exactly the expired entries go. |
| TtlCache.Cache.EvictOldest | internal/attestation/attestation.go:291-311 | One entry of a full cache goes, and it is an oldest one. |
| TtlCache.Cache.Remove | internal/attestation/attestation.go:319-323 | Delete removes the key and only it. |
| TtlCache.IsBlocked | internal/attestation/attestation.go:376-381 | A recent failure blocks while it is strictly younger than the TTL. |
| TtlCache.HeldIsLatest | internal/attestation/attestation.go:259-323 | After any operations a cache holds nothing but latest writes. |
| TtlCache.LossExplained | internal/attestation/attestation.go:274-323 | A latest write is gone only because a Put of another key into a full cache found it expired at its own time, or took it as an oldest live entry. |
| TtlCache.LiveLossIsEviction | internal/attestation/attestation.go:274-323 | As long as time does not run backwards, a write that is still live is lost only by eviction. |
| TtlCache.CapacityKept | internal/attestation/attestation.go:274-316 | No run of operations leaves more than 1000 entries. |
| SpkiCache.Cache.Contains | internal/attestation/spki.go:95-110 | A hit was added within the TTL and not deleted since; a miss means that there is none, that it has expired, or that it was dropped as an oldest live hash of a full bucket or with a domain evicted at capacity. |
| SpkiCache.Cache.Add | internal/attestation/spki.go:116-146 | The hash is recorded; at most 1024 domains, 16 hashes each and no empty bucket remain. |
| SpkiCache.Cache.DeleteDomain | internal/attestation/spki.go:151-155 | Exactly one domain is forgotten. |
| SpkiCache.Cache.EvictOldestDomain | internal/attestation/spki.go:159-173 | A domain that holds a globally oldest hash goes. |
| SpkiCache.LossExplained | internal/attestation/spki.go:116-173 | An added hash is gone only because an Add to its domain found it expired, or dropped it as an oldest live one of a full bucket, or because its domain, which held a globally oldest hash, was evicted for a new one at capacity. |
| SpkiCache.HeldIsLatest | internal/attestation/spki.go:95-155 | After any operations the cache holds nothing but latest additions. |
| Jwks.StepKeepsInv | internal/attestation/nvidia.go:228-336 | Every atomic step of every caller keeps: stores of one URL are spaced, the entry of a cached URL is its last store, and a URL that is uncached or being fetched is past its cooldown. |
| Jwks.RefetchBound | internal/attestation/nvidia.go:228-336 | Over every interleaving on at most 16 URLs without Shutdown, two stored fetches of one URL are at least the cooldown apart. |
| Jwks.SpacedIff | internal/attestation/nvidia.go:228-336 | Stores are spaced in every interleaving over a set of URLs if and only if there are at most 16 of them and no Shutdown (or no URL at all). |
| Jwks.CloseStoresLost | internal/attestation/nvidia.go:228-336 | Over every interleaving, with any number of URLs and with Shutdown: two stores of one URL closer than the cooldown have between them a Shutdown, or a store of another URL, that dropped this one. |
| Jwks.EmptyNeverCached | internal/attestation/nvidia.go:266-299 | No run stores the empty URL, since no fetch from it succeeds; this is what eviction relies on. |
| Jwks.CapacityBound | internal/attestation/nvidia.go:254-315 | Over every interleaving, Shutdown included, the cache never exceeds 16 entries. |
| Jwks.ShutdownBreaksSpacing | internal/attestation/nvidia.go:140-144 | With a Shutdown in between, two stores of any URL can be made at one time. |
| Jwks.EvictionBreaksSpacing | internal/attestation/nvidia.go:285-315 | Any seventeen URLs have a run in which one is evicted and stored again at once. |
| Jwks.NvidiaVerifier.Lookup | internal/attestation/nvidia.go:228-240 | A hit is exactly an entry younger than the TTL; the lookup changes nothing. |
| Jwks.NvidiaVerifier.LeaderRecheck | internal/attestation/nvidia.go:254-270 | The double check of the flight leader is the machine's Recheck step. |
| Jwks.NvidiaVerifier.StoreFetched | internal/attestation/nvidia.go:285-299 | Evicting at capacity and storing under the lock is the machine's Store step. |
| Jwks.NvidiaVerifier.EvictOldestLocked | internal/attestation/nvidia.go:303-315 | An oldest entry goes. |
| Jwks.NvidiaVerifier.ShouldRefetchJwks | internal/attestation/nvidia.go:324-336 | A refetch is allowed, and the entry dropped, exactly past the cooldown. |
| Report.CountTotal | internal/attestation/report.go:225-251 | Every factor is counted exactly once. |
| Report.CountedBy | internal/attestation/report.go:225-251 | Every counter is the number of factors with the status, and enforcement, it is named for. |
| Report.BlockedCount | internal/attestation/report.go:136-143 | The enforced-failure counter is positive exactly for blocked reports. |
| Report.BlockedIff | internal/attestation/report.go:621-689 | A built report is blocked exactly when an applicable, non-allowed factor failed or was skipped for good. |
| Report.SettledFactor | internal/attestation/report.go:621-689 | What building makes of one factor: when it is not applicable, passes, fails enforced or stays skipped, and with which detail. |
| Report.AllowingMoreNeverBlocks | internal/attestation/report.go:621-689 | Enlarging the allow list never introduces a block. |
| Report.WithOfflineAllowFail | internal/attestation/report.go:420-432 | The offline list is the union, the given list first. |
| Report.OfflineNeverBlocks | internal/attestation/report.go:420-432 | Going offline never introduces a block. |
| Report.ReportDataBindingPassed | internal/attestation/report.go:179-186 | The scan finds the status of the first binding factor. |
| Report.BindingPassedIff | internal/attestation/report.go:1061-1097 | A built report says the binding passed exactly when there is a signing key and the check of the evidence relied on, TDX if it parsed, succeeded. |
| Report.VerificationReport.constructor | internal/attestation/report.go:621-689 | Building applies override, enforcement and Skip promotion to every factor, and the counters are a recount. |
| Report.VerificationReport.IsBlocked | internal/attestation/report.go:136-143 | Blocked is read off the factors. |
| Report.VerificationReport.MarkE2eeUsable | internal/attestation/report.go:193-204 | Only a skipped end-to-end factor becomes Pass; counters are recounted. |
| Report.VerificationReport.MarkE2eeFailed | internal/attestation/report.go:210-221 | The end-to-end factor becomes Fail; counters are recounted. |
| Report.VerificationReport.RecomputeCounters | internal/attestation/report.go:225-251 | The counters equal a count of the factors. |
| Report.MarkedStatusOf | internal/attestation/report.go:193-221 | A mark changes the end-to-end factor and no other. |
| Report.UsableKeepsVerdict | internal/attestation/report.go:193-204 | A success mark changes neither whether the report blocks nor whether its binding passed. |
| Report.FailureSticks | internal/attestation/report.go:193-221 | Under any sequence of marks, a failed end-to-end factor never becomes Pass. |
| FieldPolicy.RequiredLeafAuthentic | internal/e2ee/relay.go:502-527 | A leaf the policy marks encrypted gets through only if authenticated, null or empty. |
| FieldPolicy.DecryptMaybeEncryptedStringField | internal/e2ee/relay.go:348-364 | In place: the string at a key is decrypted, kept or refused as specified, and no other key changes. |
| FieldPolicy.DecryptJsonValueField | internal/e2ee/relay.go:370-385 | The same for a payload stored as a JSON value. |
| Decryption.DecryptContentField | internal/e2ee/relay.go:95-166 | Content as a string or as parts, in place; other shapes pass only where the policy allows plaintext. What the content then holds is said by DecryptedValues.DecryptedDelta. |
| Decryption.DecryptAudioDataField | internal/e2ee/relay.go:168-187 | The data string inside audio. |
| Decryption.DecryptFunctionObject | internal/e2ee/relay.go:189-201 | Name and arguments of a function object. |
| Decryption.DecryptToolCallsField | internal/e2ee/relay.go:203-238 | Every element of the array, or a failure if any element fails. |
| Decryption.DecryptFunctionCallField | internal/e2ee/relay.go:240-263 | The deprecated function_call, which may also be a plain string. |
| Decryption.DecryptChatObject | internal/e2ee/relay.go:387-438 | For every order of visiting the keys, the result is the one entry-by-entry specification, so it does not depend on map order; what that result holds is said by DecryptedValues.DecryptedDelta. |
| Logprobs.DecryptLogprobsTokenEntry | internal/e2ee/relay.go:312-346 | A token entry and its nested alternatives, to any depth. |
| Logprobs.DecryptChoiceLogprobs | internal/e2ee/relay.go:265-310 | Both lists of a logprobs object. |
| DecryptedValues.DecryptedDelta | internal/e2ee/relay.go:387-438 | If decryption succeeds, every ciphertext of a nonempty text in content, its parts, audio, tool calls, function_call and the plain fields is replaced by its text in its own place; every other value, key, part and call is as it was. |
| DecryptedValues.AllPartsShown | internal/e2ee/relay.go:120-166 | An array content keeps its length; each part has its text replaced by what it encloses, and all else in it as it was. |
| DecryptedValues.AllCallsShown | internal/e2ee/relay.go:203-238 | The calls of tool_calls, one for one: the name and arguments of each function object are shown, and all else is as it was. |
| DecryptedValues.OneTokenShown | internal/e2ee/relay.go:312-346 | A token entry, to any depth: its text, its bytes, read as JSON where they parse, and its alternatives are shown, and all else is as it was. |
| DecryptedValues.DecryptedChunk | internal/e2ee/relay.go:573-628 | A decrypted chunk has its first delta and the logprobs beside it shown, where the policy covers them, and everything else as it was; a chunk without a delta is unchanged. |
| DecryptedValues.LocateIff | internal/e2ee/relay.go:579-606 | A chunk is refused as misshapen, and has a first delta, exactly by the types of its choices and of the delta. |
| FailClosed.VisitedLeavesAuthentic | internal/e2ee/relay.go:387-438 | If decryption succeeds, every visited leaf the policy marks encrypted was an authenticated ciphertext, or null or empty. |
| FailClosed.MetadataKept | internal/e2ee/relay.go:76-83 | Success keeps the keys, the five metadata values and every null. |
| FailClosed.NearCloudShapes | internal/e2ee/nearcloud.go:108-157 | Under the NearCloud policy content, audio and tool_calls of the wrong shape, and elements of the wrong shape, are refused; a function_call is the exception. |
| FailClosed.NearCloudAcceptsIff | internal/e2ee/relay.go:387-438 | Under the NearCloud policy decryption succeeds if and only if every entry is an accepted one: null, metadata, authenticated or blank leaves in their structures, unencrypted strings at structural keys, and a function_call that is not an object. |
| FailClosed.FunctionCallUnopened | internal/e2ee/relay.go:240-263 | A function_call of any other shape than an object comes through unopened, under every policy. |
| FailClosed.ChunkAuthentic | internal/e2ee/relay.go:573-628 | If a whole chunk is decrypted, every visited leaf the policy marks encrypted, in the first delta and in its logprobs at any depth, was authenticated, or null or empty. |
| FailClosed.NearCloudLogprobs | internal/e2ee/relay.go:265-346 | Under the NearCloud policy every token text and every bytes value, at any depth, was authenticated, or null or empty. |
| FailClosed.NearCloudChunkIff | internal/e2ee/relay.go:573-628 | Under the NearCloud policy a whole chunk is decrypted if and only if it parses, its first delta is accepted, and the logprobs beside it are not an object or hold authenticated or blank leaves only, to any depth. |
| FailClosed.LogprobsUnopened | internal/e2ee/relay.go:265-272 | Logprobs of any other shape than an object come through unopened, under every policy. |
| FailClosed.OthersKept | internal/e2ee/relay.go:573-628 | Decrypting a chunk leaves every choice but the first, and every other key, as it was. |
| FailClosed.NearCloudGroups | internal/e2ee/nearcloud.go:108-157 | The NearCloud policy marks the chat leaves that gate the nested groups. |
| FailClosed.NearCloudOthers | internal/e2ee/nearcloud.go:108-157 | The other message texts are encrypted, usage and metadata are plain, and every path the policy does not list is encrypted, but for the score. |
| FailClosed.VeniceOnlyContent | internal/e2ee/venice.go:102-104 | Under the Venice policy only the chat content must be, and is, an authenticated ciphertext. |
| Encryption.EncryptOptionalStringField | internal/e2ee/nearcloud.go:543-559 | A present string is replaced by a ciphertext of itself; failure means a wrong type, or that this very string could not be sealed with the last draw. |
| Encryption.EncryptMessageContent | internal/e2ee/nearcloud.go:347-370 | String content, or the JSON text of array content, is sealed; failure means another type, or that this text could not be sealed with the last draw. |
| Encryption.EncryptAudioDataField | internal/e2ee/nearcloud.go:472-487 | The data string inside audio is sealed; failure means a wrong type or that this string could not be sealed. |
| Encryption.EncryptToolCallsField | internal/e2ee/nearcloud.go:489-518 | Name and arguments of every call are sealed; failure means a wrong type or that one of these strings could not be sealed. |
| Encryption.EncryptFunctionCallField | internal/e2ee/nearcloud.go:520-541 | The same for function_call objects; strings stay. |
| Encryption.EncryptMessageFields | internal/e2ee/nearcloud.go:316-342 | Success seals every supported entry and changes nothing else; failure means an unsupported type, or that one text of this message could not be sealed with the last draw. |
| RoundTrip.EncryptDecryptIff | internal/e2ee/nearcloud.go:316-342 | Under a matching session a sealed message decrypts back to itself, array content as its JSON text, exactly when no encrypted string is empty and no unknown key holds something the decryptor would refuse or alter. |
| RoundTrip.EntryRestored | internal/e2ee/relay.go:387-438 | The same equivalence for one entry. |
| RoundTrip.MatchesSatisfiable | internal/e2ee/nearcloud.go:171-244 | A matching recipient and session exist. |
| ToolCallMerge.ToolCalls.MergeToolCallDelta | internal/e2ee/relay.go:1190-1217 | One fragment updates the call of its index only; a fragment without an integer index, or of a wrong type, is refused. |
| ToolCallMerge.ToolCalls.MergeAll | internal/e2ee/relay.go:1068-1072 | The fragments of a chunk, in order, up to the first bad one. |
| ToolCallMerge.MergeAssembles | internal/e2ee/relay.go:1190-1217 | However fragments interleave, each call has the last nonempty id, type and name of its own fragments and their arguments in order, and no other call appears. |
| ToolCallMerge.MergeIff | internal/e2ee/relay.go:1190-1217 | Merging succeeds exactly when every fragment parses. |
| ToolCallMerge.ParseIff | internal/e2ee/relay.go:1178-1198 | Which keys of a fragment feed the index, id, type, name and arguments, and exactly which fragments parse. |
| ToolCallMerge.InterleavingIrrelevant | internal/e2ee/relay.go:1190-1217 | Streams with the same fragments per index merge to the same calls. |
| ToolCallMerge.SortedToolCalls | internal/e2ee/relay.go:1220-1231 | Every call exactly once, in strictly ascending order of index. |
| ToolCallMerge.ListsUnique | internal/e2ee/relay.go:1220-1231 | There is only one such order. |
| Sse.DecryptSSEChunk | internal/e2ee/relay.go:573-628 | The first delta and the logprobs beside it are decrypted and everything else is kept. |
| Sse.DecryptSSEChunkContent | internal/e2ee/relay.go:654-716 | The decrypted texts by field; a plaintext where ciphertext is required, or an unchanged ciphertext, is refused. |
| Sse.CollectTexts | internal/e2ee/relay.go:686-710 | The classification loop, in any order. |
| Sse.ExtractChunkMeta | internal/e2ee/relay.go:1142-1175 | Decrypted tool-call fragments and the finish reason, with the typed parse of every choice. |
| Relay.RelaySSELine | internal/e2ee/relay.go:1299-1330 | What one line makes the client see and whether the relay goes on. |
| Relay.RelayStream | internal/e2ee/relay.go:1238-1293 | The whole streamed answer and its outcome, including streams with no first line. |
| StreamAgreement.StreamLineByLine | internal/e2ee/relay.go:1238-1330 | The stream is a header and the lines one for one: other lines as they came, data lines as their decrypted chunks, up to the end marker, the end, or the first chunk that cannot be decrypted, which is answered with an error event. |
| Relay.AppendTexts | internal/e2ee/relay.go:1054-1061 | Each text is appended to its field, in any order. |
| Relay.ReassembleNonStream | internal/e2ee/relay.go:1023-1120 | Success exactly when every chunk folds, the scanner reports no error once the loop has stopped, there was a chunk and the last one has a readable identity; then the message is the fold. What the fold and the message hold, key by key, is said by ReassemblyMatchesStream and AnswerMatchesStream. |
| Relay.RelayReassembledNonStream | internal/e2ee/relay.go:1337-1349 | One JSON answer, which AnswerMatchesStream reads key by key, or one error answer. |
| StreamAgreement.TextsAgree | internal/e2ee/relay.go:654-716 | The text taken for reassembly from a chunk is the text shown when streaming it. |
| StreamAgreement.FoldAgrees | internal/e2ee/relay.go:1023-1078 | Folding any rest of the lines adds exactly what the client would be shown of them. |
| StreamAgreement.ReassemblyMatchesStream | internal/e2ee/relay.go:573-716 | When one stream can be relayed and reassembled, the message has the role, every text as the concatenation over the deltas shown, no other key, and every tool call, with its id, type, function name and arguments at their own keys, assembled from its own fragments. |
| StreamAgreement.AnswerMatchesStream | internal/e2ee/relay.go:1082-1120 | The whole answer written for such a stream: id, model and created of the last chunk at their own keys, the last nonempty finish reason or "stop", and that message; or the one error answer. |
| StreamAgreement.FinishFolded | internal/e2ee/relay.go:1068-1072 | Folding keeps the last nonempty finish reason of the chunks, and the last chunk. |
| StreamAgreement.RefusedIff | internal/e2ee/relay.go:695-707 | Of a plain field the stream shows, reassembly refuses exactly a ciphertext of the empty text or of itself, which the stream passes on undecrypted. |
| StreamAgreement.StepOkIff | internal/e2ee/relay.go:1035-1072 | A chunk that the stream shows can be folded if and only if none of its texts is unreadable, its choices are well typed and its tool-call fragments parse, whatever was folded before. |
| StreamAgreement.ReassemblesIff | internal/e2ee/relay.go:1023-1120 | A stream that can be relayed can be reassembled if and only if every chunk shown can be folded, there is one, the last one has a readable identity, and the scanner reports no error. |
| ChutesRelay.RelayStreamChutes | internal/e2ee/relay_chutes.go:54-156 | The stream answer is the run of the events, which StreamEnds characterizes, with the number of chunks. |
| ChutesRelay.RelayChutesLine | internal/e2ee/relay_chutes.go:76-148 | One event: re-keying, a chunk, usage, failure, end, unparseable. |
| ChutesRelay.RelayNonStreamChutes | internal/e2ee/relay_chutes.go:162-179 | Read errors are answered; a failed decryption writes nothing. |
| ChutesRelay.NothingBeforeFirstChunk | internal/e2ee/relay_chutes.go:54-156 | The output is empty exactly when no chunk was opened, and otherwise starts with one header followed by plaintext. |
| ChutesRelay.TextsAuthentic | internal/e2ee/relay_chutes.go:102-133 | The n-th plaintext written is the opening of the n-th chunk event under the latest key before it; a relay that succeeds without an end marker has delivered every chunk event. |
| ChutesRelay.StreamEnds | internal/e2ee/relay_chutes.go:54-156 | The whole answer: one header and the openings of all chunk events before the line that ends the stream, then what that line adds. The outcome is a decryption failure exactly if that line is unparseable, fails to re-key, does not open or reports a server error. |
| ProxyModel.PassedWasChecked | internal/attestation/report.go:1061-1097 | A report whose binding passed was built on a nonempty key the verifier accepted. |
| ProxyModel.PassedIff | internal/attestation/report.go:1061-1097 | The report says the binding passed if and only if there is a key and the verifier accepted it, with a detail, on the evidence relied on. |
| ProxyModel.FreshIsChecked | internal/proxy/proxy.go:2690-2735 | An attestation fetched for its key alone counts only with evidence the verifier accepted, SEV only where there is no TDX evidence. |
| ProxyModel.ChosenIs | internal/proxy/proxy.go:2633-2735 | Without an attestation of its own a body is encrypted to the cached key, for a pool only if it is that of the instance at hand, or to one fetched now and accepted. |
| ProxyModel.BackIsAttested | internal/proxy/proxy.go:2551-2557 | Where the TLS binding is checked, a reply handed back by any of the attempts is a reply of the attested peer. |
| ProxyModel.OtherPeerEnds | internal/proxy/proxy.go:2424-2437 | An attempt that meets another peer ends the roundtrip without a reply; a peer that names itself empties the cached key. |
| ProxyModel.RetriedIff | internal/proxy/proxy.go:2559-2600 | A posted body is followed by another attempt exactly for Chutes, before the third, on a missing answer without cancellation or on status 500, 502, 503 or 504; any other reply is handed back. |
| ProxyModel.UnbuiltIff | internal/proxy/proxy.go:2500-2530 | An attempt that can make no body is followed by another exactly for Chutes, before the third, without cancellation. |
| ProxyModel.EndIsAttested | internal/proxy/proxy.go:1643-1683 | What the first relay attempt of a request hears is said by the peer its own attestation names, where that is checked. |
| ProxyModel.LearnedInRound | internal/proxy/proxy.go:2690-2735 | A key checked while building a body belongs to the pair of the request and is proved by an attestation it received, at its start or in one of its nine rounds. |
| ProxyModel.BoundAfterKey | internal/proxy/proxy.go:2176-2185 | Writing a checked key, or any key while no report vouches for it, keeps the invariant. |
| ProxyModel.BoundAfterReport | internal/proxy/proxy.go:2169-2172 | Writing a report keeps the invariant for every other pair. |
| ProxyModel.BoundAfterForgetting | internal/proxy/proxy.go:1866-1868 | Forgetting entries keeps the invariant. |
| ProxyModel.PlainNeverFailsToDecrypt | internal/e2ee/relay.go:1238-1293 | A body relayed without a session never ends in a decryption failure. |
| ProxyModel.UnwrappedSetsNoMark | internal/proxy/proxy.go:1743-1825 | An EHBP response that unwraps never sets a failure mark, not even if reading its body then fails to authenticate. |
| ProxyModel.PinnedErrorLeaks | internal/proxy/proxy.go:1978-2087 | A concrete pinned reply, status 500 with a session, after which the session is live. |
| ProxyModel.PinnedEndingIs | internal/proxy/proxy.go:1978-2087 | When a pinned request goes out, its reply is admitted, a mark is lifted and its session left live, in terms of the cached and the fetched report. |
| ProxyLog.CheckedIff | internal/proxy/proxy.go:2153-2206 | The checked keys are exactly those whose check the log records. |
| ProxyLog.MarkedIff | internal/proxy/proxy.go:1829-1873 | The marked pairs are exactly those with a mark in the log that was not lifted since. |
| ProxyLog.PostedAfterCheck | internal/proxy/proxy.go:2617-2750 | In a good log every body posted for an E2EE provider is a ciphertext to a key checked at an earlier point. |
| ProxyLog.SentUnmarked | internal/proxy/proxy.go:2891-2918 | In a good log every mark before a posted E2EE body or a relayed E2EE response was lifted in between. |
| ProxyLog.LiftedAfterFetch | internal/proxy/proxy.go:2891-2918 | In a good log a mark is lifted only after its own request fetched a trusted report. |
| ProxyLog.RespondedUnder | internal/proxy/proxy.go:1550-1602 | In a good log a response is relayed under a report its own request was judged by. |
| ProxyRun.RunIsSafe | internal/proxy/proxy.go:1550-1602 | Every event of every request in a good run is safe, in the sense of the Serve row. |
| ProxyModel.AnswerOfFate | internal/proxy/proxy.go:1683-1825 | A request succeeds exactly if the reply that decides it is read to its end, and then the answer is that output; a failing request is answered with something. |
| Proxy.Server.constructor | internal/proxy/proxy.go:437-470 | A new server is valid, with no marks, sessions or posts. |
| Proxy.Server.FetchAndVerify | internal/proxy/proxy.go:898-970 | A failed fetch is recorded as a recent failure; a fetched attestation becomes its report. |
| Proxy.Server.AttestAndCache | internal/proxy/proxy.go:2153-2206 | The governing report is the cached one or the fetched one; the request goes on exactly if there is one and it is not blocked, or forced. E2EE is active exactly when configured and the binding passed, and then the cached key is checked. |
| Proxy.Server.CacheSigningKey | internal/proxy/proxy.go:2180-2185 | The key of an enforced attestation replaces the cached one, restoring the invariant. |
| Proxy.Server.ClearE2eeFailureIfFresh | internal/proxy/proxy.go:2891-2918 | The request goes on exactly if there is no mark or it fetched an attestation, which lifts the mark; otherwise it is answered, nothing is logged, and both caches forget the pair. |
| Proxy.Server.HandleE2eeDecryptionFailure | internal/proxy/proxy.go:1829-1873 | The pair is marked, except for Chutes, and both caches forget it; the log records the mark. |
| Proxy.Server.ChooseKey | internal/proxy/proxy.go:2633-2735 | The key is the initial attestation's, a pool key equal to the cached one, the cached one, or one fetched and checked now; a usable key is always a checked one. |
| Proxy.Server.BuildUpstreamBody | internal/proxy/proxy.go:2617-2750 | An E2EE provider without active E2EE gets no body; with it, a ciphertext to a nonempty checked key and one new session. |
| Proxy.Server.VerifyUpstreamTlsBinding | internal/proxy/proxy.go:2412-2441 | A peer other than the attested one fails the request and costs both cache entries and the pinned hashes of its domain. |
| Proxy.Server.UpstreamAttempt | internal/proxy/proxy.go:2490-2585 | How an attempt ends, whether and to which key a body is posted, and what the key cache then holds are determined by the cache and by what is received; unless a reply is handed back, the session has been wiped. A body answered by a peer other than the attested one fails with 502, and if that peer names itself the report, the key and the pinned hashes of its domain are gone. |
| Proxy.Server.DoUpstreamRoundtrip | internal/proxy/proxy.go:2446-2609 | At most three posts, the initial attestation in at most one; on failure no session is left live, on success exactly the one returned. Which attempt's reply comes back, if any, is the specified one, for retrying providers too. Where the binding is checked, that reply is of the attested peer. |
| Proxy.Server.UnwrapOrFail | internal/proxy/proxy.go:2258-2303 | The EHBP body, or an answered failure that marks the pair; the session is wiped either way. |
| Proxy.RelayResponse | internal/proxy/proxy.go:2235-2252 | The relay is chosen by session kind and mode, and writes what that relay specifies. |
| Proxy.Server.RelayReply | internal/proxy/proxy.go:1683-1786 | What becomes of a reply is the specified fate of it, and a response is on record exactly if any of it is passed on; its session is wiped and at most one answer is written, the one this reply calls for; a retry has written nothing; a mark is set exactly for an EHBP response that does not unwrap. |
| Proxy.Server.RelayAttempt | internal/proxy/proxy.go:1643-1786 | One turn of the outer loop: at most three posts, all sessions wiped, the initial attestation used only in the first. It ends as specified from the cached key and what it receives; its answer is that of the reply it heard, and a reply it passes on is on record, right after the post it answers. |
| Proxy.Server.FinishRelay | internal/proxy/proxy.go:1786-1825 | The outcome decides marks, caches and the closing error, which is written only if nothing was. |
| Proxy.Server.RelayWithRetry | internal/proxy/proxy.go:1618-1797 | At most nine posts and one with the initial attestation; every session wiped on return. For every provider, the first relay attempt that is not tried again decides whether the request succeeds, whether it marks its pair and what the client is answered: the output of relaying the reply this attempt heard, an upstream error passed on, or one error of the proxy; the first two come with a response on record. Without a passed binding an E2EE provider is sent nothing and the client sees one error. |
| Proxy.Server.HandleRequest | internal/proxy/proxy.go:1550-1602 | A whole unpinned request. On the state before and what it receives: which report it is judged by, whether it is refused, stuck on a mark, or goes on; which marks it lifts and sets, and no others in between; whether it succeeds, retries included; and what the client is answered, by the reply that decides it. A reply is passed on only with a response on record, under the governing report, right after the post it answers. A request that does not go on, or an E2EE one whose binding did not pass, posts and relays nothing and is answered with one error. Every key it adds to the checked ones is proved by an attestation it received. Success stores the governing report, promoted. Where the binding is checked, a client served by the first attempt hears the peer that its own attestation names. |
| Proxy.Server.MarksMatchEnd | internal/proxy/proxy.go:1829-1873 | Only the mark of the request's own pair moves: it is set if decryption failed, unless for Chutes, and only then, and lifted only by an attestation of the request's own. |
| Proxy.Server.HandleAttested | internal/proxy/proxy.go:1576-1602 | The same from the attestation on. A request that finds a mark and fetched nothing logs nothing and is answered with one error. |
| Proxy.Server.PromoteReport | internal/proxy/proxy.go:1595-1600 | The report is stored again, from now on, with its end-to-end factor promoted; the invariant holds. |
| Proxy.Server.Serve | internal/proxy/proxy.go:1450-1602 | Over every sequence of requests, pinned or not, the log and the output are theirs, request by request. Every body posted for an E2EE provider is a ciphertext to a key checked before the run or proved by this or an earlier request; every response is relayed under a report its request was judged by, for an E2EE provider a trusted one with no mark standing; a client whose request has no such response on record sees exactly one error; every mark lifted is lifted under a trusted report that its request itself received, an unpinned one only if it found none cached. Unpinned requests leave no session live. |
| Proxy.Server.PinnedPreDispatchE2ee | internal/proxy/proxy.go:1881-1919 | A pinned E2EE request goes out exactly under a cached passed binding or with a domain to re-attest, whose pinned hashes are then forgotten. |
| Proxy.Server.PinnedPostDispatchE2ee | internal/proxy/proxy.go:1924-1973 | A pinned E2EE reply is admitted only with a report whose binding passed and, where a failure is marked, a fresh one. |
| Proxy.Server.HandlePinnedPostRelay | internal/proxy/proxy.go:2091-2143 | A decryption failure marks the pair and empties its caches; a success stores the promoted report. |
| Proxy.Server.HandlePinnedReply | internal/proxy/proxy.go:2028-2087 | The part after the handler: the session is wiped exactly if the reply is admitted and has status 200; a refused reply never reaches the client. |
| Proxy.Server.HandlePinnedChat | internal/proxy/proxy.go:1978-2087 | A pinned chat request, on the state before and what is received: the session its handler opened stays live exactly if the request went out and its reply was then refused or had a status other than 200; an admitted reply is what the client sees, on record under its governing report, and otherwise the client sees one error and nothing is on record; a mark is lifted exactly by an admitted reply with a report of its own, and set exactly by one that fails to decrypt. |
| Proxy.Server.HandlePinned | internal/proxy/proxy.go:1547-1568 | A pinned request from its beginning, on the state before: a recent failure refuses it, and otherwise everything the next row says holds of the whole request. |

## Left out

- Cryptographic primitives, X.509, TDX and SEV parsing, Merkle proofs and CT checks are inputs or parameters.
- JSON, hex, base64, PEM and TOML text: JSON is a tree, so duplicate keys, case-insensitive struct keys and invalid UTF-8 are not captured; a plaintext is a string.
- Cutting a byte stream into lines: the relays start from lines already split, with a flag for a scanner error.
- Stream statistics other than the Chutes chunk and token counts, logging, metrics, the dashboard and CLI.
- Response decryption for images, embeddings, rerank and score endpoints, and whole-body decryption of plain JSON chat responses: the same leaf rules under other paths.
- Encryption of top-level tools, tool_choice and non-chat requests: the same field encryptor on other keys.
- The report factors other than the REPORTDATA binding are inputs of the builder.
- Proxy requests are sequential; interleaved requests, request parsing, model resolution and the response headers are not modelled.
- Proxy.Server.HandleE2eeDecryptionFailure: does not invalidate the nonce pool or mark instances failed, because the pool is an input of each attempt.
- The bodies of pinned handlers, with the hashes they add to the SPKI cache, and the non-chat pinned handler.
- The body of an upstream error that is passed on: only its status is modelled.
- Copying request bodies: a posted plaintext is the body itself; a ciphertext is known by its session and key.
- Poc.ChainSignatures: a stage-2 request is its URL, nonces and partial signatures; the quote in it is the same for all of them.
- Poc.CheckQuote: arrival order stands for the goroutines of stage 1.
- Poc.SortedUnique: the sort of nonces that share a URL is not determined, so results about their order ask for distinct URLs.
- Jwks.RefetchBound: the fetch itself is an input, and HTTP or parse failures store nothing.
- SpkiCache.Cache.Add: domain and hash names are nonempty, because eviction treats the empty name as unset; its callers add hex digests under the domain of a live connection.
- Jwks.NvidiaVerifier.StoreFetched: the URL is not empty, because a fetch from the empty URL fails.
- Jwks.NvidiaVerifier.EvictOldestLocked: the cache does not hold the empty URL, which eviction would take for unset; `Jwks.EmptyNeverCached` shows that it never does.
- TtlCache.Cache.Put: the clock is positive, because zero is the unset time; one reading of it stands for the two the code takes.
- Proxy.Server.Serve: a pinned chat may leave its session live, see above.
