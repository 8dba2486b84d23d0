# Ractor Wormhole, modelled and proved in Dafny

Ractor Wormhole connects two actor systems by a *conduit* with a *portal* at each end. A portal publishes local actors to
its peer under opaque ids, and serializes (*immaterializes*) messages so that the actor references and reply ports inside
them become ids, which the peer turns back into proxies. This project models that machinery and proves what it promises.

| part | modules |
|---|---|
| byte format: universe of types, encoder and decoder as functions, theorems, and the buffer and offset routines that refine them | `Bytes`, `Codec`, `CodecTheorems`, `CodecLayout`, `CodecBuffers` |
| the derive macro as a compiler from declarations to straight-line `let` programs | `Derive`, `DeriveRuns`, `DeriveReads`, `DeriveTheorems`, `DeriveWrites`, `DeriveEncoders`, `DeriveItems` |
| byte-stream conduits: frames, two decoders, the receive loop | `Framing` |
| references inside a message, and replacing them | `Refs` |
| one portal: the state machine (`Turn`), the conduit id, what a turn keeps, what it sends, how it ends, and the actor object that refines it | `Portal`, `Bits`, `ConduitIds`, `PortalFrames`, `PortalTheorems`, `PortalSends`, `PortalEnds`, `PortalActor` |
| two portals with mailboxes, detached serialization tasks, exit watchers and a FIFO wire per direction, in every interleaving | `Link`, `LinkWire`, `LinkLookups`, `LinkIds`, `LinkCrossing`, `LinkMeaning`, `LinkMessages`, `LinkExits`, `LinkProxies`, `LinkProgress`, `LinkRuns`, `LinkWitness` |
| the nexus, and any number of portals fed by arbitrary peers | `Nexus`, `Confinement` |
| reply ports across a conduit: the stand-in, the rebuilt port, and both in runs of two portals | `RpcProxy`, `RpcLink` |
| alias generator of the chat server | `Alias` |

How the model is set up:

- **A turn is a function.** `Portal.Turn` takes a portal, a mailbox message and a `World` (a uuid nobody has, the nexus
  registry at that moment, the reply channels whose receiver is gone, the stopped actors, whether the sink works, what the
  target's rematerializer makes of an incoming payload) to the portal afterwards, with a log of everything it did to the
  outside. The class `PortalActor.PortalActor` has the fields of the original, and each handler is proved to do that turn.
- **A run is a sequence of actions.** In `Link`, an action is one turn, one packet cast by the receive loop, one message
  from the application, one proxy announcing itself, one step of a serialization task, a death, or a watcher's report.
  The theorems of `LinkRuns` quantify over all sequences of enabled actions from two portals that just sent their
  introductions. `HandshakeCompletes` shows that such runs do get both portals open, and `LinkWitness.EverythingHappens`
  that they do answer a lookup, deliver a message with a reference, start its proxy, send an exit notice and stop the
  proxy.
- **Ended is final.** A portal that failed, closed or stopped takes no more turns. Equalities that need both sides alive
  say so; the safety halves (nothing twice, nothing invented) hold regardless.
- **Applications of `Link` send what they like.** They send through proxies for ids they received, with messages of any
  type. `JobTyped` says that a message has the type its target was published for; conservation and exactly-once delivery
  hold regardless, meaning is kept by the messages that are typed, and `MistypedForges` shows what can come of the others.
  In `Confinement` the peers need not even be portals: they send arbitrary packets.
- **Reply ports live in `RpcLink`.** Its runs are runs of `Link` (`TalkIsRun`) in which a port is rebuilt for each one that
  arrives; only rebuilt ports send to the stand-ins, since nobody is handed an actor reference to one.
- **Formats of other crates are parameters.** `Codec.Formats` carries bincode's encoding of ids and UTF-8 validity; each
  theorem names what it needs of them (`RoundTrips`, `Injective`, `PrefixFree`).

Where the code is more, or less, than one might expect, the code was followed:

- The decoder of a generic `Vec` reads the element count but never compares it. `WriteBack` therefore says *exactly when*
  an accepted input is canonical, `CountIgnored` that the count can be anything, and `VecPadding` says exactly which
  tails a top-level `Vec` accepts.
- The macro's names can collide, and not every collision stops the compiler. A `usize` field `len_x` before a field `x`
  compiles and silently receives the byte length of `x`'s frame (`LengthTakesOver`); a `Vec<u8>` field `field_bytes_x`
  behind a field `x` of an enum variant compiles and is silently written as the encoding of `x` (`EncodingTakesOver`).
  Every other collision fails to compile. `FieldsDecodeExactly` and `ArmEncodeExactly` give the result in every case,
  `DecoderRightIff` and `EncoderRightIff` the names for which the code is right.
- Nothing is ever removed from `published_actors`, not even when the actor exits.
- An exit that is reported before the handshake is never announced: the portal complains, and nothing reports it again
  (`MissedBeforeHandshake`).
- A proxy is registered by a separate message, which can come after the exit notice for its actor. `NoticeStopsLatest`
  is about the proxy that is registered when the notice is handled; a later one is not stopped (`LateNotice`).

## Model

| member | source | states |
|---|---|---|
| Bytes.UnframeFrame | ractor_wormhole/src/transmaterialization/default_implementations.rs:77-80 | a length-prefixed block followed by anything is read back as that block and that rest |
| CodecTheorems.RoundTrip | ractor_wormhole/src/transmaterialization/default_implementations.rs:65-463 | every well-typed value of every nested type, encoded into fewer than 2^64 bytes, is decoded to itself, and its bytes are consumed exactly |
| CodecTheorems.IntRoundTrip | ractor_wormhole/src/transmaterialization/default_implementations.rs:168-221 | little-endian two's complement gives every value in range back, for all widths and both signednesses |
| CodecTheorems.WriteBack | ractor_wormhole/src/transmaterialization/default_implementations.rs:86-109 | whatever any decoder accepts is well typed, re-encodes to as many bytes, and to the very same bytes if and only if every element count inside was truthful |
| CodecTheorems.Canonical | ractor_wormhole/src/transmaterialization/default_implementations.rs:115-163 | for types without generic Vec, re-encoding a decoded value gives the input back: one accepted encoding per value |
| CodecTheorems.VecHeaderOnly | ractor_wormhole/src/transmaterialization/default_implementations.rs:86-109 | for a top-level Vec of such types, input and re-encoding agree behind the 8-byte header |
| CodecTheorems.CountIgnored | ractor_wormhole/src/transmaterialization/default_implementations.rs:92-107 | the header of any Vec input can be replaced by any 8 bytes: the decoded value, or the rejection, does not depend on it |
| CodecTheorems.PrefixFree | ractor_wormhole/src/transmaterialization/default_impl_tupl.rs:74-96 | of two accepted inputs of a type other than Vec neither is a proper prefix of the other, whatever is nested inside |
| CodecTheorems.CutOrPaddedRejected | ractor_wormhole_derive/src/derive_wormhole_serializable.rs:352-371 | every proper prefix and every proper extension of an encoding is rejected, unless the type is Vec at the top |
| CodecTheorems.VecPadding | ractor_wormhole/src/transmaterialization/default_implementations.rs:97-107 | behind an accepted Vec, a tail is accepted if and only if it is itself a run of elements, and it is then read as more elements |
| CodecLayout.EveryVariantCrosses | ractor_wormhole_derive/src/derive_wormhole_serializable.rs:758-830 | each variant of an enum with different names has values, which are written under its name and read back |
| CodecLayout.OtherNamesRejected | ractor_wormhole_derive/src/derive_wormhole_serializable.rs:779-837 | a name of no variant is neither a value of the enum nor accepted, whatever follows it |
| CodecLayout.IntegerBytes | ractor_wormhole/src/transmaterialization/default_implementations.rs:168-221 | byte `i` of an integer of any width is digit `i` to the base 256, least significant first, of the number or of its two's complement |
| CodecLayout.OptionDiscriminants | ractor_wormhole/src/transmaterialization/default_implementations.rs:401-463 | none is 0; a value is 1 and one frame |
| CodecLayout.ResultDiscriminants | ractor_wormhole/src/transmaterialization/default_implementations.rs:331-395 | success is 0 and failure 1, each followed by one frame |
| CodecBuffers.Immaterialize | ractor_wormhole/src/transmaterialization/default_implementations.rs:68-84 | the routine that extends a buffer computes the specified encoding, for every type |
| CodecBuffers.ImmaterializeVec | ractor_wormhole/src/transmaterialization/default_implementations.rs:72-83 | the for loop over the elements appends exactly count and element frames |
| CodecBuffers.Rematerialize | ractor_wormhole/src/transmaterialization/default_implementations.rs:86-109 | the routine that advances an offset computes the specified decoding, rejecting exactly what it rejects, for every type |
| CodecBuffers.RematerializeVec | ractor_wormhole/src/transmaterialization/default_implementations.rs:90-108 | the while loop over the remaining bytes returns the elements of the specification or fails where it fails |
| CodecBuffers.RematerializeFields | ractor_wormhole/src/transmaterialization/default_impl_tupl.rs:74-96 | reading one frame per field, with the size checks in between, is the record decoder at any arity |
| CodecBuffers.RematerializeEnum | ractor_wormhole_derive/src/derive_wormhole_serializable.rs:779-837 | name, payload, arm, then the final consumption check: the enum decoder of the specification |
| DeriveTheorems.FieldsDecodeCorrect | ractor_wormhole_derive/src/derive_wormhole_serializable.rs:352-371 | run in an environment of named bindings, the generated `let` sequence of a field list computes the field-by-field decoder, provided no earlier field is named `bytes_x`, `len_x` or `x` for a later `x` |
| DeriveTheorems.FieldsDecodeExactly | ractor_wormhole_derive/src/derive_wormhole_serializable.rs:297-374 | on every input, for any distinct field names: rejected input fails; accepted input gives the decoded fields, except that a `usize` field `len_x` before a field `x` receives the byte length of `x`; any other clash does not compile |
| DeriveTheorems.DecoderRightIff | ractor_wormhole_derive/src/derive_wormhole_serializable.rs:297-374 | a generated decoder is right on all inputs if and only if no earlier field is named `bytes_x` or `len_x` for a later `x` (given that some input is acceptable at all) |
| DeriveTheorems.LengthTakesOver | ractor_wormhole_derive/src/derive_wormhole_serializable.rs:352-403 | `struct { len_x: usize, x: String }`: for every number sent, the decoder compiles and returns the length of the encoded text in its place |
| DeriveEncoders.StructEncodeCorrect | ractor_wormhole_derive/src/derive_wormhole_serializable.rs:346-350 | the generated encoder of a struct writes the encoding of its fields, whatever the fields are called |
| DeriveEncoders.ArmEncodeExactly | ractor_wormhole_derive/src/derive_wormhole_serializable.rs:641-753 | the generated encoder of an enum variant compiles exactly when no field shadows `buffer`, `ctx` or an earlier field's bytes, other than a `Vec<u8>` field; it then writes the fields it sees, where such a `Vec<u8>` field has the earlier field's encoding as its value |
| DeriveEncoders.EncoderRightIff | ractor_wormhole_derive/src/derive_wormhole_serializable.rs:641-753 | it is right on all values if and only if no field shadows `buffer`, `ctx` or an earlier field's bytes (given that the variant has a value at all) |
| DeriveEncoders.EncodingTakesOver | ractor_wormhole_derive/src/derive_wormhole_serializable.rs:697-727 | `V { x: u8, field_bytes_x: Vec<u8> }`: for every value, the encoder compiles and writes the encoding of `x` in place of the second field |
| DeriveTheorems.NumberedIntroduces | ractor_wormhole_derive/src/derive_wormhole_serializable.rs:460-490 | the numbered scheme never clashes, at any arity: a value binding is written by its own field only |
| DeriveTheorems.NamedIntroduces | ractor_wormhole_derive/src/derive_wormhole_serializable.rs:306-308 | exactly which pairs of field names make one field's code overwrite the other's value |
| DeriveItems.DerivedDecodes | ractor_wormhole_derive/src/derive_wormhole_serializable.rs:376-842 | the derived decoder of a whole struct or enum is the decoder of its type, on every input, accepted or not; the fields run the generated statements, while the code around an enum's arms (name, payload length, final check) is given directly |
| DeriveItems.DerivedEncodes | ractor_wormhole_derive/src/derive_wormhole_serializable.rs:376-842 | the derived encoder of a whole struct or enum is the encoder of its type; the frames around an enum's arm are given directly |
| DeriveItems.SameFieldsSameBytes | ractor_wormhole_derive/src/derive_wormhole_serializable.rs:389-518 | a named struct, a tuple struct and a tuple with the same field types have the same bytes |
| DeriveItems.DeriveRefuses | ractor_wormhole_derive/src/derive_wormhole_serializable.rs:310-338 | deriving is refused if and only if some named field carries `#[serde]` or `#[bincode]` |
| DeriveItems.StructRefused | ractor_wormhole_derive/src/derive_wormhole_serializable.rs:310-338 | the error is about the first annotated field, and says whether it has one attribute, the other, or both |
| DeriveItems.VariantsRefused | ractor_wormhole_derive/src/derive_wormhole_serializable.rs:582-756 | of an enum, about the first annotated field of the first variant that has one |
| DeriveItems.DeriveTuple | ractor_wormhole_derive/src/derive_wormhole_serializable.rs:433-490 | the two loops that push code pieces produce the code of the numbered scheme |
| DeriveItems.DeriveEnum | ractor_wormhole_derive/src/derive_wormhole_serializable.rs:582-756 | the loop over the variants produces one arm each, in order, or the error of the first refused variant |
| Framing.SourcesIndistinguishable | ractor_wormhole/src/conduit/ssh/client.rs:462-533 | for every byte stream, well formed or not, a portal behind an ssh source and one behind a unix source receive the same messages |
| Framing.OneClose | ractor_wormhole/src/conduit/mod.rs:58-95 | whatever arrives, a listening portal gets handshakes and contents and then exactly one close |
| Framing.EveryStream | ractor_wormhole/src/conduit/mod.rs:58-95 | every stream is messages as sinks write them and something that makes the source stop; the portal gets handshakes as handshakes and contents as contents, with their data, in order, then the close |
| Framing.FrameLayout | ractor_wormhole/src/conduit/unix_socket/client.rs:73-123 | a frame is the type 0 or 1, four bytes of length with the most significant first, and the data |
| Framing.OtherItems | ractor_wormhole/src/conduit/ssh/client.rs:462-533 | what either source makes of a close, of the end of the stream and of a type nobody writes |
| Framing.MessageReadBack | ractor_wormhole/src/conduit/unix_socket/client.rs:73-123 | either source reads back what either sink wrote if and only if the payload's length fits the 4-byte header |
| Framing.StreamReadBack | ractor_wormhole/src/conduit/unix_socket/server.rs:73-180 | of a written stream the portal gets a handshake exactly for each handshake and a content exactly for each content, with the same bytes, in order, then the close |
| Framing.CutStream | ractor_wormhole/src/conduit/unix_socket/client.rs:125-180 | a connection cut at any byte hands over exactly the messages written completely before the cut, handshakes as handshakes and contents as contents, then the close |
| Framing.WholeMessages | ractor_wormhole/src/conduit/unix_socket/client.rs:125-180 | which messages those are: the longest prefix whose frames fit |
| Framing.ReceiveLoop | ractor_wormhole/src/conduit/mod.rs:58-95 | the loop hands over the specified casts and stops when the actor is gone; of a written stream it hands over each message as what it is, then the close |
| Framing.ConduitSource.NextItem | ractor_wormhole/src/conduit/ssh/client.rs:466-530 | one pull consumes from the reader exactly what the decoder of its kind specifies, and yields that item |
| Framing.ConduitSink.Send | ractor_wormhole/src/conduit/ssh/client.rs:404-460 | a sink writes the frame of the message, or as much of it as the writer takes before it breaks; it succeeds if and only if all was written and flushed and the message is not a close on ssh; after an error it is not used again |
| Framing.BrokenIsCut | ractor_wormhole/src/conduit/unix_socket/client.rs:73-123 | wherever the writer breaks while messages are sent, what it took is a prefix of the stream, so `CutStream` says what arrives |
| Alias.SamePairIffCongruent | chat_app/server/src/alias_gen.rs:106-118 | two calls use the same pair of words if and only if their numbers agree modulo ARRAY_LEN squared |
| Alias.EveryPairComesUp | chat_app/server/src/alias_gen.rs:106-118 | every combination comes up in any 900 calls in a row |
| Alias.AliasesRepeatExactly | chat_app/server/src/alias_gen.rs:126-139 | the capitalized aliases themselves are equal if and only if the call numbers agree modulo ARRAY_LEN squared |
| Alias.Walk | chat_app/server/src/alias_gen.rs:106-118 | both indices start at zero and go on by one; after 30 calls the first starts over and the second is shifted by one |
| Alias.AliasReads | chat_app/server/src/alias_gen.rs:126-139 | an alias is the adjective, a blank and the noun, each with its first letter in upper case and otherwise unchanged |
| Alias.AliasGenerator.GenerateCapitalized | chat_app/server/src/alias_gen.rs:134-139 | the object's n-th call returns the n-th alias and counts on |
| Refs.FillRestores | ractor_wormhole/src/transmaterialization/mod.rs:170-231 | replacing the references of a message and putting the originals back gives the original: only references change |
| Refs.OnlyMissingTimeouts | ractor_wormhole/src/transmaterialization/mod.rs:137-168 | giving every reply port a timeout changes nothing but timeouts, and of those only the missing ones, to the default |
| Refs.TimeoutsDetermine | ractor_wormhole/src/transmaterialization/mod.rs:137-168 | two messages that agree without timeouts and in their timeouts are the same, so that nothing else could have changed |
| Refs.OwnTimeoutsStay | ractor_wormhole/src/transmaterialization/mod.rs:137-168 | a message in which every port has a timeout, or which has no port, is not changed at all |
| ConduitIds.XorLoop | ractor_wormhole/src/portal.rs:331-337 | the loop over sixteen bytes sets exactly the bits that are set in one of the two arrays but not in both |
| ConduitIds.ConduitIdAgrees | ractor_wormhole/src/portal.rs:450-461 | both sides compute the same conduit id from the two contributions |
| ConduitIds.ConduitIdBits | ractor_wormhole/src/portal.rs:450-461 | each bit of the sixteen little-endian bytes of the conduit id is set if and only if exactly one contribution has it |
| ConduitIds.ConduitIdsDiffer | ractor_wormhole/src/portal.rs:450-461 | with the same contribution of one's own, conduit ids are equal if and only if the peers contributed the same |
| PortalTheorems.HandshakeReleases | ractor_wormhole/src/portal.rs:437-466 | the handshake that opens a portal answers everyone who waited, as often as they asked, and leaves nobody waiting |
| PortalTheorems.ReleaseInOrder | ractor_wormhole/src/portal.rs:464-466 | those who waited are answered in the order they came, skipping those who are gone |
| PortalTheorems.TurnKeepsRegistries | ractor_wormhole/src/portal.rs:340-380 | no turn makes two ids stand for one actor, leaves a name without a published actor, or changes or drops an id |
| PortalTheorems.TurnGrows | ractor_wormhole/src/portal.rs:430-848 | no turn takes back anything published, sent, answered or delivered, nor the conduit id of an open portal |
| PortalTheorems.IdsAreStable | ractor_wormhole/src/portal.rs:347-378 | between any two moments of a portal's life, whatever turns lie between, equal ids mean equal actors and equal actors have equal ids |
| PortalTheorems.TurnKeepsNames | ractor_wormhole/src/portal.rs:675-690 | after any turn a name means the actor last published under it on this portal |
| PortalTheorems.TurnKeepsWatchers | ractor_wormhole/src/portal.rs:367-376 | exactly one exit watcher is ever started per published actor, and none for others |
| PortalTheorems.NamedPublicationAnswered | ractor_wormhole/src/portal.rs:675-704 | publishing under a name hands back an id that stands for that actor on the open conduit, or nothing before the handshake; the name means the actor from then on, and an actor published for the first time is filed with its rematerializer |
| PortalTheorems.PublicationAnswered | ractor_wormhole/src/portal.rs:706-730 | publishing hands back an id that stands for that actor, filed with its rematerializer if it is new; before the handshake a publication that wants an id publishes nothing |
| PortalTheorems.AskersAreTold | ractor_wormhole/src/portal.rs:663-673 | over any life of a portal, a port is told that it opened, or still waits, exactly as often as it asked, whether it asked before or after the handshake; nobody waits on an open portal |
| PortalTheorems.LifeKeeps | ractor_wormhole/src/portal.rs:430-848 | the invariants of registries, names and watchers, and that nothing is taken back, hold after any sequence of turns, under any circumstances |
| PortalTheorems.RequestAnswered | ractor_wormhole/src/portal.rs:502-561 | the answer to a lookup carries an id of the actor last published under the name on the portal, else of the nexus entry, else says not found; a nexus actor is filed with the rematerializer of its entry, and nothing else is filed |
| PortalTheorems.LookupsRepeat | ractor_wormhole/src/portal.rs:502-549 | two lookup turns with any turns between them: the two answers sent are equal if and only if the names resolved to the same actor, or both to none |
| PortalSends.SentStep | ractor_wormhole/src/portal.rs:502-807 | a turn sends at most one message; each kind has one cause, its ids are issued by the sender, and a portal that still runs has answered the request, asked the query or passed on the message it handled |
| PortalEnds.TurnEnds | ractor_wormhole/src/portal.rs:430-848 | a running portal ends by a turn exactly on one of ten conditions, each with its own way of ending; on none of them it goes on |
| PortalEnds.TurnComplains | ractor_wormhole/src/portal.rs:430-848 | mail about something unknown, or too early, changes nothing but the complaints, by one of the right kind, and no other mail is complained about |
| PortalActor.PortalActor.FindPublished | ractor_wormhole/src/portal.rs:347-349 | searching the entries in any order finds the actor if and only if it is published |
| PortalActor.PortalActor.PublishCell | ractor_wormhole/src/portal.rs:340-380 | returns the id the actor already has or files it under the new one, keeping the registry injective |
| PortalActor.PortalActor.DrainWaiting | ractor_wormhole/src/portal.rs:464-466 | the drain answers the waiting ports in order, skipping those whose receiver is gone |
| PortalActor.PortalActor.Handle | ractor_wormhole/src/portal.rs:430-848 | the handler on the mutable fields does exactly the turn of the state machine, for every message, and keeps the registries in order |
| LinkWire.WireStep | ractor_wormhole/src/portal.rs:390-496 | every action keeps: what a portal handled and holds in its mailbox is a prefix of what the other sent, that is one handshake and then content, and a portal is open exactly after hearing the handshake |
| LinkLookups.QueryTurn | ractor_wormhole/src/portal.rs:732-751 | a lookup accepted from the application is filed under the next number with its own name and port |
| LinkLookups.ResponseTurn | ractor_wormhole/src/portal.rs:594-615 | an answer goes to the port filed under its number, as it is, and the request is closed |
| LinkLookups.LookupsConserved | ractor_wormhole/src/portal.rs:732-751 | while both run, the open requests are the disjoint, duplicate-free union of the requests and the answers in flight, all below the next number |
| LinkLookups.ResponseIsNext | ractor_wormhole/src/portal.rs:594-603 | the next answer on the wire is for the oldest open request |
| LinkCrossing.TasksAfterTurn | ractor_wormhole/src/portal.rs:706-730 | after any turn each serialization task holds the right ids for the first references of its own message, in order |
| LinkCrossing.ArrivesAsImage | ractor_wormhole/src/portal.rs:616-633 | the rematerializer stored for the target of a typed message returns the sent tree with each actor replaced by its id |
| LinkCrossing.MistypedForges | ractor_wormhole/src/transmaterialization/mod.rs:76-90 | without the type this is false: a byte vector sent to an actor whose messages consist of one reference is delivered as a reference to any id the bytes spell |
| LinkCrossing.ReceivedMessage | ractor_wormhole/src/portal.rs:616-640 | an arriving message is delivered to the actor its id stands for, as its image if it is typed; or it ends the portal, because that actor stopped or because a mistyped payload cannot be decoded; nothing else can happen |
| LinkCrossing.ReceivedProxies | ractor_wormhole/src/portal.rs:205-260 | each reference of a typed message that arrives gets a proxy of its own, for the id the peer issued for the actor at that place, even if the message can then not be delivered |
| LinkRuns.NoViolation | ractor_wormhole/src/portal.rs:467-496 | in every run, each side sends one handshake and then decodable content; neither the second-handshake nor the content-before-handshake stop, nor an unknown request or target ever occurs, and a payload fails to decode only if the other side sent a mistyped message |
| LinkRuns.AddressesAgree | ractor_wormhole/src/portal.rs:450-461 | in every run, both open sides have the conduit id of the two contributions, and every id received carries it with the issuer's side and names one of the issuer's actors, or was forged by a mistyped message |
| LinkRuns.IdsKeepMeaning | ractor_wormhole/src/portal.rs:340-380 | an id received at any point of a run stands for the same actor after whatever else happens, unless a mistyped message forged it; and if all messages are typed none is forged |
| LinkRuns.HandshakeCompletes | ractor_wormhole/src/portal.rs:390-466 | from the start both portals can become open and keep running |
| LinkRuns.EveryLookupInOnePlace | ractor_wormhole/src/portal.rs:594-615 | in every run with both sides alive, each lookup is open in one place or answered once, to the port that asked it |
| LinkRuns.EveryMessageInOnePlace | ractor_wormhole/src/portal.rs:753-807 | in every run with both sides alive, each accepted message is being serialized, failed, waiting, in flight or delivered: in one place, and there are no others |
| LinkRuns.NothingDeliveredTwice | ractor_wormhole/src/portal.rs:616-633 | in every run, ended or not, no message is delivered twice and none that was not accepted |
| LinkRuns.CrossingKeepsMeaning | ractor_wormhole/src/transmaterialization/mod.rs:137-231 | in every run, each delivery goes back to a message the other application handed to a proxy, and to the actor its target id was issued for; if it was typed, it is the same tree, in which each actor became an id the sender's registry resolves to it, equal ids exactly for equal actors, and each reply port kept its timeout or got the default |
| LinkMeaning.RunJobs | ractor_wormhole/src/portal.rs:753-775 | over any run, whatever a side accepts for serialization is what its application handed in, with timeouts filled in |
| LinkRuns.ExitNoticesAreExact | ractor_wormhole/src/portal.rs:820-848 | in every run, the exit of each published actor is, while the portal runs, in exactly one place: watched for, reported, announced, or reported before the handshake; at most one notice is sent per id, only for stopped actors, and a proxy is stopped only if the actor it stood for has stopped |
| LinkExits.ExitAnnounced | ractor_wormhole/src/portal.rs:826-845 | the exit of any published actor is announced under its id, or the broken sink ends the portal |
| LinkRuns.NoTaskIsStuck | ractor_wormhole/src/portal.rs:706-807 | in every run, a serialization task of a running portal can ask for its next id, or hand its message over, or waits for an answer to a question that is in the mailbox |
| LinkProgress.TaskServed | ractor_wormhole/src/portal.rs:706-730 | the turn that handles a task's question gives that task, and no other, the id of the actor it asked about |
| LinkProgress.NothingHeldBack | ractor_wormhole/src/portal.rs:390-848 | while a portal runs, the next packet can be taken off the wire, the oldest mail handled, a started proxy can announce itself and a watcher report its actor |
| LinkProgress.AnnouncedOnce | ractor_wormhole/src/portal.rs:245-260 | a proxy that announces itself is registered once |
| LinkRuns.EveryReferenceHasItsProxy | ractor_wormhole/src/portal.rs:205-260 | in every run, the proxies a side started are, in order, one for each reference of each delivered message, for the id that stands at that place; a portal that ended on a stopped target has started some more |
| LinkWitness.EverythingHappens | ractor_wormhole/src/portal.rs:430-848 | whatever both sides contributed there is a run in which a lookup is answered, a message with a reference delivered, its proxy started, and stopped by the notice that the actor is gone, with both portals running at the end |
| LinkExits.NoticeStopsLatest | ractor_wormhole/src/portal.rs:642-652 | a notice stops and forgets the proxy registered last for its id, whatever the portal handled in between; a second notice stops nothing |
| Nexus.NexusActor.Connected | ractor_wormhole/src/nexus.rs:87-125 | a started portal is stored before the callback and the reply are tried; either failing, or the portal not starting, ends the nexus |
| Nexus.NexusActor.GetAllPortals | ractor_wormhole/src/nexus.rs:127-130 | returns every stored portal exactly once |
| Nexus.NexusActor.PublishNamedActor | ractor_wormhole/src/nexus.rs:132-156 | another actor replaces the entry; the same actor again changes nothing, not even the rematerializer |
| Nexus.NexusActor.QueryNamedActor | ractor_wormhole/src/nexus.rs:157-161 | returns the entry or nothing |
| Nexus.NexusActor.HandleSupervisorEvt | ractor_wormhole/src/nexus.rs:166-190 | a terminated or failed portal is removed, and only that one |
| Confinement.NexusNames | ractor_wormhole/src/nexus.rs:132-161 | after any history the nexus entry of a name is the actor published last under it, with the rematerializer given when the actor under the name last changed |
| Confinement.NexusLists | ractor_wormhole/src/nexus.rs:87-130 | after any history the nexus lists exactly the portals started and not reported as ended, under their identifiers |
| Confinement.LookupIsFoldOfHistory | ractor_wormhole/src/portal.rs:502-549 | after any history, a lookup over a portal returns an id of the actor published last under the name on that portal, else of the one published last on the nexus, else not found |
| Confinement.LookupsRepeatInHistory | ractor_wormhole/src/portal.rs:502-549 | two lookups over one portal at any two moments of any history: the answers are equal if and only if both names stood for the same actor at their moments, or both for none |
| Confinement.PeersAreConfined | ractor_wormhole/src/portal.rs:616-640 | in every history, whatever the peers send, a portal delivers only to actors published on it, referred to by messages sent over it, or published on the nexus under a name its peer asked for on it, and decodes with the rematerializer given there |
| Confinement.OthersDoNotMatter | ractor_wormhole/src/nexus.rs:132-190 | drop from a history everything the other portals handled and every report that they ended: this portal, its place in the table, the names of the nexus and whether the nexus runs come out the same |
| Confinement.NexusEndsByItself | ractor_wormhole/src/nexus.rs:87-161 | the nexus has ended if and only if it handled a message that ends it: a connection whose portal cannot start, or a callback or reply nobody takes; no report about a portal ends it |
| RpcProxy.RpcProxyActor.Handle | ractor_wormhole/src/transmaterialization/rpc_proxy.rs:62-83 | takes the port, forwards one value or logs that nobody waits, unlinks and stops |
| RpcProxy.RpcProxyActor.Kill | ractor_wormhole/src/transmaterialization/mod.rs:149 | a timeout stops the stand-in; the port receives nothing from it |
| RpcProxy.FirstEventDecides | ractor_wormhole/src/transmaterialization/rpc_proxy.rs:62-83 | over any sequence of replies and timeout kills the port receives exactly what the first event brings, if that is a reply it still waits for; a reply uses up the port and unlinks the stand-in, a timeout does neither |
| RpcProxy.OneMessage | ractor_wormhole/src/transmaterialization/rpc_proxy.rs:88-114 | a port rebuilt on the other side sends a message if and only if its task ran after the first answer given before the port was dropped; it wraps that answer, and there is no other |
| RpcProxy.RepliesAtMostOnceAndFaithful | ractor_wormhole/src/transmaterialization/mod.rs:137-213 | in every run of two portals the original reply port receives at most one value, decoded from a message the other side sent to this very port: the image of the reply, if that is typed |
| RpcLink.OnlyPortsReply | ractor_wormhole/src/transmaterialization/mod.rs:196-213 | in every run a port is rebuilt for each port that arrives, in order, and every message to a stand-in wraps the first answer given to one of them |
| RpcLink.AnswerCanGo | ractor_wormhole/src/transmaterialization/rpc_proxy.rs:100-110 | an answered port can forward its answer as long as its portal runs, unless its id was forged |
| RpcLink.CallerGetsFirstAnswer | ractor_wormhole/src/transmaterialization/rpc_proxy.rs:62-114 | end to end, in every run: a caller receives at most one value, decoded from the first answer given to a port rebuilt under the id of its own port; if that is typed it is the same tree with ids for actors and with timeouts kept or filled in |
| RpcLink.EventsAreDeeds | ractor_wormhole/src/transmaterialization/rpc_proxy.rs:88-114 | what happened to a rebuilt port is exactly what was done to it in the run, in order |
| RpcLink.PortsListed | ractor_wormhole/src/transmaterialization/mod.rs:190-213 | of a message from the wire every reply port is among those that are rebuilt |
| RpcLink.TalkIsRun | ractor_wormhole/src/transmaterialization/rpc_proxy.rs:100-110 | what two portals do in a run with reply ports is a run of theirs, so that every theorem about runs applies |

## Left out

- Recursive message types: the universe of types is finite trees, so a type that contains itself (through a box) has no `Ty`.
- Floats: `f32` and `f64` travel as their bit patterns, which the integer formats cover; their arithmetic does not occur.
- Platforms with 32-bit `usize`: decoders are modelled for 64 bits, where a declared length plus an offset that overflows ends in an error or a panic either way; both are `None`.
- `Vec::with_capacity(count)` as an allocation that can abort the process on an absurd count.
- bincode, serde_json and UTF-8 internals: parameters, with the properties each theorem names.
- `anyhow::Error` as a message type, the serde and bincode proxies, and generics of the derive macro.
- The cut of a reply port's timeout from 128 to 64 bits of milliseconds when it is rebuilt, and clock values: a timeout is a kill at any time.
- Wrap-around of the request counter in release builds: `Portal.OnQuery` ends the portal on the 2^64th request, as a debug build does.
- Read errors that are not an end of the stream, websocket conduits, connection set-up, authentication and host keys.
- Killing of portals linked to a nexus that ends, and the supervision of proxies by their portal.
- Order of two messages of one proxy, and that every proxy of a dead actor is eventually stopped: the code does not guarantee them.
- Liveness beyond the runs of `LinkRuns.HandshakeCompletes` and `LinkWitness.EverythingHappens`: mailboxes need not be served.
- Messages to ids the peer never issued, which only a mistyped message can bring: `Link` applications do not send them.
- Proxies started for the first references of a message that then fails to decode: they end with the portal they are linked to.
- The shuffle of the alias word lists: any order of two lists of 30 different lower-case words is allowed, and the words themselves are not part of this model.
- FnActor, the combinators, the chat programs, the user interfaces, foreign-language clients and the `generate_deps` tool.
