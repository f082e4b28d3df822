# Algorand event ticketing, modelled in Dafny

This project is a Dafny model of the core of an Algorand event-ticketing
dApp. The dApp has these parts:

- **Ticket-manager smart contracts.** Each event runs one. It sells tickets
  as single-unit NFTs (ASAs), keeps a status per ticket and moves the
  payments. The repository has four variants:
  - an Algorand Python (algopy, ARC-4) contract with cancellation and
    resale (`ticket_manager_backup.py`);
  - a smaller ARC-4 contract;
  - a PyTeal contract whose boxes are keyed by asset id;
  - the PyTeal contract the front end deploys, whose boxes are keyed by
    sale index.
- **An event registry ("factory").** It exists in an ARC-4 variant and a
  PyTeal variant.
- **The Next.js front end.** This covers:
  - the helper that signs and sends atomic groups;
  - the registry reader;
  - the create-event, events and dashboard pages;
  - the refund dialog;
  - the address formatter.

## How the model is organised

- **Contracts.** Each contract is a `class`. Its global state is fields, and
  its box storage is a field that methods reassign:
  - the ARC-4 contracts use a `map` from ticket id to record;
  - the PyTeal contracts use a `map` from box key bytes to box bytes, at
    byte level.
- **Contract methods.**
  - Each method returns a `Result`. On an abort the method leaves the object
    unchanged: a failed application call has no effect on the chain.
  - Inner transactions are appended to a `submitted` log.
  - The minted asset id and the latest block timestamp are parameters.
- **Front-end code.**
  - Pure helpers are functions.
  - Loops that fill buffers or walk lists are methods with loop invariants,
    each proved equal to a specification function.
- **Interaction with the node and wallet** is an input to those methods:
  - the global state a query returns;
  - the boxes that exist;
  - whether signing, sending or confirmation succeeds.
- **Integers.**
  - `u64` is the AVM's unsigned 64-bit range. An overflow aborts, as the
    AVM does.
  - JavaScript numbers are modelled as unbounded naturals where the code
    only adds or compares them.
  - algosdk's `decodeUint64(…, 'safe')` is modelled as failing above 2^53 − 1.

## Model

| member | source | states |
|---|---|---|
| Bytes.Itob | smart-contracts/event_factory.py:28 | `Itob`/`encodeUint64` yields exactly 8 bytes whose big-endian value is the number |
| Bytes.ItobInjective | smart-contracts/event_factory.py:28 | distinct numbers never share an 8-byte encoding, so keys built from distinct counts are distinct boxes |
| Bytes.ItobOnto | smart-contracts/event_factory.py:28 | every 8-byte string is the encoding of its own big-endian value, which is below 2^64 |
| Bytes.FromToBE | smart-contracts/event_factory.py:28 | decoding a w-byte big-endian encoding gives the number modulo 256^w |
| Bytes.ToFromBE | smart-contracts/event_factory.py:28 | re-encoding a decoded byte string at its own width gives it back |
| Bytes.Btoi | smart-contracts/event_factory.py:31 | `btoi` fails exactly on inputs longer than 8 bytes and inverts `Itob` on 8-byte inputs |
| Bytes.DecodeUint64Safe | frontend/utils/events.ts:62 | `decodeUint64(…, 'safe')` succeeds exactly on 1 to 8 bytes whose value is at most 2^53 − 1, and then returns that value |
| Bytes.JsSlice | frontend/utils/events.ts:62 | `slice(start, end)` never grows the array and is the ordinary subsequence when the bounds are in range |
| Bytes.JsSliceFrom | frontend/utils/algorand.ts:16 | `slice(start)` never grows the array and is the ordinary suffix when start is in range |
| Bytes.At | frontend/app/dashboard/page.tsx:234 | indexing past the end gives `undefined` (None); otherwise the element |
| Bytes.Utf8Ascii | frontend/app/create-event/page.tsx:171 | `TextEncoder` maps an ASCII string to one byte per character, each the character's code |
| Avm.Extract | frontend/public/utils/contracts/ticket_manager.py:126 | `extract` fails exactly when the range runs past the end, and otherwise returns those bytes |
| Avm.Replace | smart-contracts/ticket_manager.py:100 | `box_replace` fails when the bytes do not fit, and otherwise overwrites exactly that range and keeps the length |
| Avm.BoxPut | frontend/public/utils/contracts/ticket_manager.py:61-68 | `box_put` fails exactly when an existing box has another length, and otherwise stores the value under the key |
| GlobalState.Find | frontend/utils/events.ts:48 | `find` on the state list returns a value exactly when some entry has the key, and that entry's value |
| GlobalState.GetInt | frontend/utils/events.ts:71-75 | a missing key reads as 0; with unique keys, an integer entry reads as its value |
| GlobalState.GetBytes | frontend/utils/events.ts:78-82 | a missing key reads as empty; with unique keys, a byte entry reads as its bytes |
| GlobalState.LastUint | frontend/app/events/page.tsx:191-197 | the `forEach` overwrite keeps the initial value when the key is absent |
| GlobalState.LastUintIsFind | frontend/app/events/page.tsx:191-197 | with unique keys, the last-write `forEach` reads the same value as the first-match `find` |
| GlobalState.FindPrefix | frontend/utils/events.ts:48 | dropping a trailing entry with another key does not change what `find` returns |
| TicketStatus.Code | smart-contracts/algokit_contracts/ticket_manager_backup.py:29 | status codes are the bytes 0 to 4 |
| TicketStatus.FromCode | smart-contracts/algokit_contracts/ticket_manager_backup.py:29 | decoding a code 0 to 4 and re-encoding it gives the same byte |
| TicketStatus.TerminalEndsRun | smart-contracts/algokit_contracts/ticket_manager_backup.py:147-329 | in any sequence of accepted transitions, a Used or Cancelled status can only be the last one: a ticket is checked in once and never used after cancellation |
| TicketStatus.RunStep | smart-contracts/algokit_contracts/ticket_manager_backup.py:118-329 | each consecutive pair of a run is one of the contract's transitions |
| TicketStatus.RunPredecessors | smart-contracts/algokit_contracts/ticket_manager_backup.py:147-253 | Used is reached only from Claimed, Cancelled only from Pending, Listed only from Claimed |
| TicketManagerBackup.PercentSplit | smart-contracts/algokit_contracts/ticket_manager_backup.py:197-203 | penalty and royalty split: cut = ⌊amount·pct/100⌋ and rest = amount − cut sum to the amount; pct 0 gives no cut; the product overflowing uint64 aborts |
| TicketManagerBackup.ScaledCutBound | smart-contracts/algokit_contracts/ticket_manager_backup.py:199 | for a percentage of at most 100 the scaled cut never exceeds the amount |
| TicketManagerBackup.SplitPayments | smart-contracts/algokit_contracts/ticket_manager_backup.py:205-216 | a payment to the organizer only when the cut is positive, then the remainder to the other party |
| TicketManagerBackup.SplitPaysAmount | smart-contracts/algokit_contracts/ticket_manager_backup.py:205-216 | the payments of a split move exactly the amount that was split |
| TicketManagerBackup.CutAtMostAmount | smart-contracts/algokit_contracts/ticket_manager_backup.py:197-203 | the cut never exceeds the amount, and below 100 % a positive amount leaves a positive refund |
| TicketManagerBackup.TicketManager.constructor | smart-contracts/algokit_contracts/ticket_manager_backup.py:55-63 | zero price, supply and sold; the zero organizer; deadline 0; 10 % penalty and 5 % royalty defaults; no tickets |
| TicketManagerBackup.TicketManager.CreateEvent | smart-contracts/algokit_contracts/ticket_manager_backup.py:65-78 | only the creator, and only with both percentages at most 100; sets every event field, resets sold, makes the sender organizer |
| TicketManagerBackup.TicketManager.BuyTicket | smart-contracts/algokit_contracts/ticket_manager_backup.py:80-116 | succeeds exactly for an exact payment to the app while sold < supply; mints, records a Pending ticket for the buyer, increments sold |
| TicketManagerBackup.TicketManager.ClaimTicket | smart-contracts/algokit_contracts/ticket_manager_backup.py:118-145 | only the owner of a Pending ticket; transfers the NFT and sets Claimed, nothing else changes |
| TicketManagerBackup.TicketManager.CheckIn | smart-contracts/algokit_contracts/ticket_manager_backup.py:147-167 | only the organizer, only a Claimed ticket; sets Used, no transaction |
| TicketManagerBackup.TicketManager.WithdrawFunds | smart-contracts/algokit_contracts/ticket_manager_backup.py:169-177 | only the organizer; one payment of the amount to them |
| TicketManagerBackup.TicketManager.CancelTicket | smart-contracts/algokit_contracts/ticket_manager_backup.py:179-223 | only the owner of a Pending ticket, before the deadline; pays the penalty to the organizer (when positive) and the rest to the owner, together exactly the price; sets Cancelled |
| TicketManagerBackup.TicketManager.ListForResale | smart-contracts/algokit_contracts/ticket_manager_backup.py:225-253 | only the owner of a Claimed ticket with a positive price; sets Listed with that price |
| TicketManagerBackup.TicketManager.BuyResaleTicket | smart-contracts/algokit_contracts/ticket_manager_backup.py:255-307 | exact positive payment for a Listed ticket; royalty to the organizer and the rest to the seller sum to the payment; buyer becomes owner, status Claimed |
| TicketManagerBackup.TicketManager.DelistResaleTicket | smart-contracts/algokit_contracts/ticket_manager_backup.py:309-329 | only the owner of a Listed ticket; back to Claimed with no resale price |
| TicketManagerBackup.TicketManager.GetEventInfo | smart-contracts/algokit_contracts/ticket_manager_backup.py:331-343 | returns the six event fields |
| TicketManagerBackup.TicketManager.GetTicketInfo | smart-contracts/algokit_contracts/ticket_manager_backup.py:345-348 | fails exactly for an unknown ticket, and otherwise returns its record |
| TicketManagerBackup.TicketManager.GlobalView | smart-contracts/algokit_contracts/ticket_manager_backup.py:43-50 | the contract's global state as the node reports it, one entry per attribute name and no key twice |
| TicketManagerArc4.TicketManager.constructor | smart-contracts/algokit_contracts/ticket_manager.py:51-56 | zero price, supply and sold, the zero organizer, no tickets |
| TicketManagerArc4.TicketManager.CreateEvent | smart-contracts/algokit_contracts/ticket_manager.py:58-65 | only the creator; sets price and supply, resets sold, makes the sender organizer |
| TicketManagerArc4.TicketManager.BuyTicket | smart-contracts/algokit_contracts/ticket_manager.py:67-102 | exact payment to the app while sold < supply; a Pending ticket for the buyer, sold + 1, one mint |
| TicketManagerArc4.TicketManager.ClaimTicket | smart-contracts/algokit_contracts/ticket_manager.py:104-130 | only the owner of a Pending ticket; NFT transfer and Claimed |
| TicketManagerArc4.TicketManager.CheckIn | smart-contracts/algokit_contracts/ticket_manager.py:132-151 | only the organizer, only a Claimed ticket; sets Used |
| TicketManagerArc4.TicketManager.WithdrawFunds | smart-contracts/algokit_contracts/ticket_manager.py:153-161 | only the organizer; one payment of the amount |
| TicketManagerArc4.TicketManager.GetEventInfo | smart-contracts/algokit_contracts/ticket_manager.py:163-168 | returns price, supply and sold |
| AssetTicketManager.TicketValue | smart-contracts/ticket_manager.py:57 | a new box is 33 bytes: the owner's 32 bytes, then the Pending byte |
| AssetTicketManager.TicketKey | smart-contracts/ticket_manager.py:57 | the box key is the 8-byte encoding of the asset id |
| AssetTicketManager.WithStatus | smart-contracts/ticket_manager.py:100 | replacing the status byte at offset 32 keeps the length and every other byte |
| AssetTicketManager.TicketKeyInjective | smart-contracts/ticket_manager.py:57 | distinct assets have distinct boxes |
| AssetTicketManager.AssetTicketManager.constructor | smart-contracts/ticket_manager.py:6-19 | empty state: no organizer, no boxes |
| AssetTicketManager.AssetTicketManager.CreateEvent | smart-contracts/ticket_manager.py:21-28 | sets price and supply, resets sold, records the sender as organizer (no creator check) |
| AssetTicketManager.AssetTicketManager.BuyTicket | smart-contracts/ticket_manager.py:30-57 | exact payment to the app while sold < supply; box for the minted asset holding buyer and Pending; sold + 1 |
| AssetTicketManager.AssetTicketManager.ClaimTicket | smart-contracts/ticket_manager.py:60-101 | a missing box aborts; only the owner stored in the box, only Pending; sets byte 32 to Claimed, keeps the owner, transfers the NFT |
| AssetTicketManager.AssetTicketManager.CheckIn | smart-contracts/ticket_manager.py:103-131 | only the recorded organizer (an unset organizer aborts), only Claimed; sets Used |
| IndexedTicketManager.TicketKey | frontend/public/utils/contracts/ticket_manager.py:62 | the box key is "tickets" followed by the 8-byte sale index (15 bytes) |
| IndexedTicketManager.TicketKeyInjective | frontend/public/utils/contracts/ticket_manager.py:62 | distinct indices have distinct boxes |
| IndexedTicketManager.TicketValue | frontend/public/utils/contracts/ticket_manager.py:63-67 | a new box is 41 bytes: asset id, owner, Pending |
| IndexedTicketManager.WithStatus | frontend/public/utils/contracts/ticket_manager.py:108 | replacing the status byte at offset 40 keeps the length and every other byte |
| IndexedTicketManager.KeysUpTo | frontend/public/utils/contracts/ticket_manager.py:59-62 | the keys of sales 1 to n |
| IndexedTicketManager.KeysUpToStep | frontend/public/utils/contracts/ticket_manager.py:59-62 | one more sale adds exactly the next key |
| IndexedTicketManager.BuyKeepsLayout | frontend/public/utils/contracts/ticket_manager.py:32-72 | writing sale n + 1 keeps every box of sales 1 to n and the 41-byte layout of every box |
| IndexedTicketManager.IndexedTicketManager.constructor | frontend/public/utils/contracts/ticket_manager.py:6-19 | empty state, no boxes, no logs |
| IndexedTicketManager.IndexedTicketManager.CreateEvent | frontend/public/utils/contracts/ticket_manager.py:21-30 | only the creator; sets price and supply, resets sold, records the organizer |
| IndexedTicketManager.IndexedTicketManager.BuyTicket | frontend/public/utils/contracts/ticket_manager.py:32-72 | exact payment while sold < supply; increments sold first, then writes box "tickets"+be64(new sold) with asset, buyer, Pending; logs the asset id; boxes stay exactly the keys of sales 1 to sold |
| IndexedTicketManager.IndexedTicketManager.ClaimTicket | frontend/public/utils/contracts/ticket_manager.py:74-109 | a missing box aborts; only the owner at bytes 8 to 40 and only Pending; sets Claimed and transfers the asset stored in bytes 0 to 8 |
| IndexedTicketManager.IndexedTicketManager.CheckIn | frontend/public/utils/contracts/ticket_manager.py:111-130 | only the organizer, only Claimed; sets Used |
| IndexedTicketManager.IndexedTicketManager.WithdrawFunds | frontend/public/utils/contracts/ticket_manager.py:132-144 | only the organizer; one payment of the amount |
| IndexedTicketManager.IndexedTicketManager.GetEventInfo | frontend/public/utils/contracts/ticket_manager.py:146-153 | returns price, supply and sold |
| EventFactoryArc4.BoxKey | smart-contracts/algokit_contracts/event_factory.py:35 | the `events` BoxMap key is "events" followed by the 8-byte index |
| EventFactoryArc4.BoxKeyInjective | smart-contracts/algokit_contracts/event_factory.py:35 | distinct indices have distinct boxes |
| EventFactoryArc4.EncodeEntry | smart-contracts/algokit_contracts/event_factory.py:19-22 | the ARC-4 struct: 8-byte app id, head offset 10, 2-byte length, name bytes |
| EventFactoryArc4.EventFactory.constructor | smart-contracts/algokit_contracts/event_factory.py:37-39 | count 0 and no entries |
| EventFactoryArc4.EventFactory.RegisterEvent | smart-contracts/algokit_contracts/event_factory.py:41-60 | returns the old count, stores the entry there in a box that did not exist, and increments the count; aborts only on uint64 overflow |
| EventFactoryArc4.EventFactory.GetEventCount | smart-contracts/algokit_contracts/event_factory.py:62-65 | returns the count |
| EventFactoryArc4.EventFactory.GetEvent | smart-contracts/algokit_contracts/event_factory.py:67-70 | fails exactly for an index at or past the count, and otherwise returns that entry |
| EventFactoryRaw.EntryValue | smart-contracts/event_factory.py:31 | the value is the 8-byte app id followed by the raw name, with no length prefix |
| EventFactoryRaw.DecodeEntry | smart-contracts/event_factory.py:31 | splits a value back into id and name |
| EventFactoryRaw.DecodeEntryValue | smart-contracts/event_factory.py:31 | decoding a stored value gives back the id and the name |
| EventFactoryRaw.EventFactory.constructor | smart-contracts/event_factory.py:6-14 | count 0 and no boxes |
| EventFactoryRaw.EventFactory.RegisterEvent | smart-contracts/event_factory.py:16-35 | stores id and name under a key not used before, namely `Itob(count)`, and increments the count |
| EventFactoryRaw.BoxesDecode | smart-contracts/event_factory.py:28-34 | every box is keyed by the encoding of an index below the count and holds a decodable entry |
| Signer.IndexesToSign | frontend/utils/signer.ts:25 | asks to sign every index 0 to n − 1 |
| Signer.Encodings | frontend/utils/signer.ts:26 | one unsigned encoding per transaction, in order |
| Signer.TxIds | frontend/utils/signer.ts:55 | one id per transaction, in order |
| Signer.ValidTxns | frontend/utils/signer.ts:40 | the filter keeps only non-empty signed entries, and is empty exactly when none is usable |
| Signer.ValidTxnsAppend | frontend/utils/signer.ts:40 | filtering distributes over concatenation |
| Signer.ValidTxnsAllUsable | frontend/utils/signer.ts:40 | when every entry is usable the filter keeps them all, in order |
| Signer.DummySigner | frontend/utils/signer.ts:69-74 | one empty signature per requested index |
| Signer.DummySignerRejected | frontend/utils/signer.ts:69-74 | the dummy signer's output never survives the validity filter |
| Signer.FailureMessage | frontend/utils/signer.ts:61 | the error's message when non-empty, otherwise a non-empty default |
| Signer.NoticesAppend | frontend/utils/signer.ts:30-61 | notices and sends of a trace distribute over concatenation |
| Signer.Tell | frontend/utils/signer.ts:30 | an observer call notifies exactly once when an observer is present and never sends |
| Signer.ExecuteAtc | frontend/utils/signer.ts:8-64 | asks the wallet to sign all; a wallet error is rethrown right after the request, with only the waiting notice and nothing sent; then: count mismatch or no valid signature fails before sending; otherwise sends the valid ones once; node errors are reported once as failed and rethrown; success returns all ids and the round or 0 |
| Signer.SendAndConfirm | frontend/utils/signer.ts:46-63 | the group is sent exactly once, first; a node error is told once as failed, after the broadcast notice if the send succeeded, and rethrown; success tells broadcast then confirmed and returns all ids with the round or 0 |
| EventsUtil.EventsBoxPrefix | frontend/utils/events.ts:23 | the events prefix is the registry's BoxMap name |
| EventsUtil.TicketsBoxPrefix | frontend/utils/events.ts:25 | the bytes of "tickets" |
| EventsUtil.BuildBoxKey | frontend/utils/events.ts:28-33 | the key is the prefix followed by the key bytes |
| EventsUtil.BuildBoxKeyInjective | frontend/utils/events.ts:28-33 | under one prefix, distinct indices give distinct keys |
| EventsUtil.EventBoxKeyAgrees | frontend/utils/events.ts:57 | the reader's key for index i is the ARC-4 registry's key for i |
| EventsUtil.ParseEventBox | frontend/utils/events.ts:62-64 | the parse as written: the id is the first 8 bytes when safe, and the name is taken from offset 10 with the length read from bytes 8 and 9 |
| EventsUtil.ParseEventBoxArc4 | smart-contracts/algokit_contracts/event_factory.py:19-22 | the struct parse: the length is at bytes 10 and 11 and the name follows it |
| EventsUtil.ParseEventBoxArc4Inverts | smart-contracts/algokit_contracts/event_factory.py:52-55 | parsing an encoded registry entry gives back its id and name |
| EventsUtil.ParseEventBoxMisreadsName | frontend/utils/events.ts:63-64 | the parse as written returns the id correctly but a name starting with the length bytes, wrong for every length other than 10 |
| EventsUtil.ParseEventBoxExample | frontend/utils/events.ts:63-64 | app 7 named "ab" is listed with the name bytes 0, 2, 'a', 'b' |
| EventsUtil.FetchEvent | frontend/utils/events.ts:55-106 | an event is listed only when its box and its app state exist |
| EventsUtil.FetchUpTo | frontend/utils/events.ts:54-107 | at most one event per index |
| EventsUtil.FetchUpToSound | frontend/utils/events.ts:54-107 | every listed event is the reading of some index below the count |
| EventsUtil.FetchUpToComplete | frontend/utils/events.ts:54-107 | when every index reads, the list is every event in index order |
| EventsUtil.FetchAllEvents | frontend/utils/events.ts:36-113 | empty for registry id 0 or a failed query; otherwise the events of indices below `event_count`, never more than that count |
| EventsUtil.CollectEvents | frontend/utils/events.ts:54-107 | the loop over indices below `event_count` computes exactly the specified list |
| EventsUtil.FetchNext | frontend/utils/events.ts:55-106 | one loop step appends the reading of the next index, if it reads |
| CreateEvent.RegisterEventSelector | frontend/app/create-event/page.tsx:170 | a four-byte method selector |
| CreateEvent.NameArg | frontend/app/create-event/page.tsx:171-175 | two big-endian length bytes, then the name bytes |
| CreateEvent.DecodeNameArg | frontend/app/create-event/page.tsx:173-175 | reading the length from the two head bytes never yields more than the input |
| CreateEvent.NameArgRoundTrip | frontend/app/create-event/page.tsx:171-175 | a name shorter than 65536 bytes decodes back from its argument |
| CreateEvent.NameArgBuffer | frontend/app/create-event/page.tsx:172-175 | the filled buffer equals the length-prefixed name |
| CreateEvent.BoxKeyBuffer | frontend/app/create-event/page.tsx:161-163 | the filled buffer is the prefix followed by the key |
| CreateEvent.FactoryCount | frontend/app/create-event/page.tsx:157-158 | "event_count" when present, else "EventCount", else 0 |
| CreateEvent.BuildRegisterCall | frontend/app/create-event/page.tsx:157-185 | arguments are the selector, the new app id and the length-prefixed UTF-8 name; the box is the registry key of the current count |
| CreateEvent.DeployEvent | frontend/app/create-event/page.tsx:108-200 | refuses without a wallet or with a blank name; the step counter advances 0, 1, 2, 3 one stage at a time; created exactly when every stage succeeds; registers only with a registry id |
| CreateEvent.RegistrationBoxAgrees | frontend/app/create-event/page.tsx:157-163 | against the ARC-4 registry the named box is the one `register_event` writes |
| EventsPage.CodeUnitSumAppend | frontend/app/events/page.tsx:49 | the code-unit sum of a concatenation is the sum of the sums |
| EventsPage.GradientIndex | frontend/app/events/page.tsx:48-51 | the index is below the number of gradients |
| EventsPage.EventGradient | frontend/app/events/page.tsx:48-51 | the result is one of the six gradients |
| EventsPage.GradientIgnoresOrder | frontend/app/events/page.tsx:48-51 | swapping two parts of a name keeps its gradient |
| EventsPage.GradientOfBmpChar | frontend/app/events/page.tsx:48-51 | a one-character name in the Basic Multilingual Plane picks gradient (code mod 6) |
| EventsPage.TicketsLeft | frontend/app/events/page.tsx:333-352 | the "N left" count is positive exactly when the event is not sold out, and sold + N = supply |
| EventsPage.RecentEntries | frontend/app/events/page.tsx:81 | the first min(6, n) stored events |
| EventsPage.FetchRawEvent | frontend/app/events/page.tsx:155-175 | an event is listed only when the box `Itob(i)` is non-empty and the app state exists |
| EventsPage.FetchRawUpTo | frontend/app/events/page.tsx:154-176 | at most one event per index |
| EventsPage.FetchRawEventDecodes | frontend/app/events/page.tsx:156-169 | a PyTeal registry entry is listed with its id and name, and with the app's "Price" and "Sold" |
| EventsPage.FetchRawUpToSound | frontend/app/events/page.tsx:154-176 | every listed event is the reading of some index below the count |
| EventsPage.FetchRawUpToComplete | frontend/app/events/page.tsx:154-176 | when every index reads, the list is every event in index order |
| EventsPage.RegisteredEventListed | frontend/app/events/page.tsx:154-176 | every entry the PyTeal registry wrote is listed with its id and name |
| EventsPage.FetchEvents | frontend/app/events/page.tsx:138-181 | refuses registry id 0; "not a factory" exactly without either count key; otherwise the events of the indices below the count, with "none found" exactly when that list is empty |
| EventsPage.CollectRawEvents | frontend/app/events/page.tsx:154-176 | the loop collects exactly the specified list |
| EventsPage.CountOf | frontend/app/events/page.tsx:147-152 | "event_count" when present, else "EventCount" |
| EventsPage.RefreshSoldAndPrice | frontend/app/events/page.tsx:191-197 | the loop's sold and price are the last "Sold" and "Price" entries, defaulting to 0 and the listed price |
| EventsPage.BuyTicket | frontend/app/events/page.tsx:183-217 | refuses without a wallet; sold out exactly when the fresh Sold reaches supply; otherwise pays the fresh price to the app and names box "tickets"+be64(fresh Sold) (as written) |
| EventsPage.TicketsBoxKey | frontend/app/events/page.tsx:212-216 | the filled key is "tickets" followed by the 8-byte index |
| EventsPage.BuyBoxKeyMissesWrite | frontend/app/events/page.tsx:211-216 | the referenced box is the key of sale `sold`, never of sale `sold + 1`, the one the contract writes |
| EventsPage.FirstPurchaseReferencesNoTicket | frontend/app/events/page.tsx:211-216 | on a fresh event the first purchase references a box that does not exist |
| EventsPage.IntendedBuyBoxKey | frontend/app/events/page.tsx:211 | the corrected key names the index sold + 1 |
| EventsPage.SubmitPurchase | frontend/public/utils/contracts/ticket_manager.py:32-72 | with the corrected key, a successful purchase writes exactly the referenced box, holding the minted asset and the buyer, and that box did not exist before |
| Dashboard.ReadEvent | frontend/app/dashboard/page.tsx:108-157 | an event reads exactly when its state exists; revenue = price × sold |
| Dashboard.OrganizerEvents | frontend/app/dashboard/page.tsx:142-157 | only events whose organizer is the connected account, revenue price × sold |
| Dashboard.OrganizerEventsNeedOrganizer | frontend/app/dashboard/page.tsx:133-142 | an event without an "Organizer" entry is never shown |
| Dashboard.OrganizerEventsAll | frontend/app/dashboard/page.tsx:98-178 | when the account organizes every stored event, all are shown in order |
| Dashboard.ReadEventKept | frontend/app/dashboard/page.tsx:142 | an event organized by the account reads and keeps that organizer |
| Dashboard.LoadOrganizerEvents | frontend/app/dashboard/page.tsx:98-178 | the loop computes exactly the filtered list |
| Dashboard.CountActive | frontend/app/dashboard/page.tsx:189 | the count of events still on sale is at most the number of events |
| Dashboard.SumSoldPositive | frontend/app/dashboard/page.tsx:184 | the total sold is positive exactly when some event sold a ticket |
| Dashboard.AggregatesAppend | frontend/app/dashboard/page.tsx:183-189 | total supply, total sold, total revenue and the active count each split over a concatenation of event lists |
| Dashboard.CalculateStats | frontend/app/dashboard/page.tsx:181-207 | total tickets, sold and revenue are the sums of supply, sold and revenue over the events; active is the count of events with sold < supply; attendees equal sold; active ≤ total events; check-in rate 85 exactly when something sold, else 0; royalties and resale revenue 0 |
| Dashboard.SoldAtMostTickets | frontend/app/dashboard/page.tsx:183-184 | when no event oversold, the total sold is at most the total tickets |
| Dashboard.NoActiveEvents | frontend/app/dashboard/page.tsx:189 | no active events exactly when every event is sold out |
| Dashboard.RevenueOfOnePrice | frontend/app/dashboard/page.tsx:185 | with one common price, total revenue is that price × total sold |
| Dashboard.SumRevenueOfOnePrice | frontend/app/dashboard/page.tsx:185 | summed revenue of events at one price equals that price times summed tickets sold |
| Dashboard.StatusOfByte | frontend/app/dashboard/page.tsx:238 | bytes 0 to 3 name their status, and everything else, `undefined` included, reads as cancelled |
| Dashboard.DecodeTicketBox | frontend/app/dashboard/page.tsx:232-246 | owner is bytes 8 to 40 and status the byte at 40 |
| Dashboard.TicketBoxKey | frontend/app/dashboard/page.tsx:221-224 | the requested key is the contract's key of that index |
| Dashboard.LoadUpTo | frontend/app/dashboard/page.tsx:220-247 | a successful load lists at most n tickets, with indices 1 to n |
| Dashboard.LoadEventTickets | frontend/app/dashboard/page.tsx:210-257 | requests the boxes of indices 1 to sold, in order, and decodes them as specified |
| Dashboard.RequestTicketBoxes | frontend/app/dashboard/page.tsx:220-226 | one request per index 1 to sold |
| Dashboard.DecodeFetched | frontend/app/dashboard/page.tsx:229-247 | the decode loop computes the specified load |
| Dashboard.DecodeOne | frontend/app/dashboard/page.tsx:230-246 | one decode step extends the load up to index n−1 to the load up to n |
| Dashboard.LoadUpToStaysNone | frontend/app/dashboard/page.tsx:229-247 | once one decode throws, the whole load fails |
| Dashboard.AsWrittenLoadFails | frontend/app/dashboard/page.tsx:235-236 | against the deployed contract, any event with a sale fails to load |
| Dashboard.DecodeIndexedBox | frontend/app/dashboard/page.tsx:232-238 | the corrected decode of a 41-byte box gives asset, owner and status, and resale price 0 |
| Dashboard.ZeroWhenAbsentListsAll | frontend/app/dashboard/page.tsx:210-257 | with the corrected decode, every sold ticket is listed in index order |
| Dashboard.LoadsAllTickets | frontend/app/dashboard/page.tsx:229-247 | when boxes 1 to n are all 41-byte boxes, all n are listed |
| Dashboard.SanitizeChar | frontend/app/dashboard/page.tsx:312 | a letter or digit is kept as it is; any other character becomes one `_` per UTF-16 unit |
| Dashboard.Sanitize | frontend/app/dashboard/page.tsx:312 | the result holds only ASCII letters, digits and `_` |
| Dashboard.SanitizeBmp | frontend/app/dashboard/page.tsx:312 | on a name without characters above U+FFFF, position i of the result is the name's character when it is a letter or digit, and `_` otherwise |
| Dashboard.SanitizeKeepsLength | frontend/app/dashboard/page.tsx:312 | keeps the JavaScript length, and keeps an alphanumeric name unchanged |
| Dashboard.SanitizeIdempotent | frontend/app/dashboard/page.tsx:312 | sanitising twice is sanitising once |
| Dashboard.SanitizeUnderscores | frontend/app/dashboard/page.tsx:312 | names of letters, digits and `_` are fixed points |
| Dashboard.ExportFileName | frontend/app/dashboard/page.tsx:312 | the sanitised name plus "_attendees.csv": 14 more than the name's JavaScript length |
| Dashboard.Row | frontend/app/dashboard/page.tsx:299-305 | five cells per ticket |
| Dashboard.ExportAttendeeList | frontend/app/dashboard/page.tsx:294-317 | nothing without a selection or tickets; otherwise the header, then one five-cell row per ticket starting with its index |
| Refund.FetchEventInfo | frontend/components/RefundModal.tsx:40-60 | data exactly when the query succeeds; "Price" and "Deadline" read as 0 when absent |
| Refund.CanCancel | frontend/components/RefundModal.tsx:112-123 | offered exactly when data and ticket exist, the status is Pending or Claimed, and now is before the deadline |
| Refund.AsWrittenNeverCancels | frontend/components/RefundModal.tsx:54 | against the only contract with `cancel_ticket`, cancellation is never offered |
| Refund.CanCancelIntended | smart-contracts/algokit_contracts/ticket_manager_backup.py:191-195 | offered only for a Pending ticket with event data |
| Refund.IntendedMatchesContract | smart-contracts/algokit_contracts/ticket_manager_backup.py:179-195 | the corrected offer is made exactly when `cancel_ticket` passes its status and deadline checks |
| Refund.CalculateRefund | frontend/components/RefundModal.tsx:125-137 | zeros without data; otherwise no penalty and the whole price refunded |
| Refund.QuoteExceedsContractRefund | frontend/components/RefundModal.tsx:129 | with a positive penalty that rounds to a positive amount, the contract refunds less than the dialog shows |
| Refund.CancelRequest | frontend/components/RefundModal.tsx:62-92 | a call exactly with a wallet and a ticket; argument the ticket's index, box "tickets"+be64(index) |
| Algorand.FormatAddress | frontend/utils/algorand.ts:15-17 | 11 characters for addresses of 4 or more; short inputs repeat whole |
| Algorand.FormatAddressEnds | frontend/utils/algorand.ts:15-17 | the result is the first min(4, n) characters, "...", and the last min(4, n) |
| Algorand.FormatAddressDeterminesEnds | frontend/utils/algorand.ts:15-17 | equal shortenings mean equal first four and last four characters |

## Left out

- The ASA mint is not modelled: its asset id is a parameter. Fees, minimum balances, opt-ins, group position and the rest of the AVM are also left out. Only the payment and transfer fields the contracts check or set are kept.
- The latest block timestamp, the wall clock (`Date.now()`) and the node's responses are parameters. How the wallet computes signatures, the network calls themselves, how `waitForConfirmation` polls, and React state or rendering are left out; the wallet's answer (signatures or an error) and the node's answers are inputs.
- localStorage event metadata (date, day, location) is left out. So are the average price and sell-through rate, which are floating-point divisions, and every ALGO/microAlgo conversion and `toFixed` format.
- `algosdk.encodeAddress` (base32 and checksum) is left out: owner and organizer stay raw 32-byte values. `TextDecoder` is left out too: names stay bytes. `btoa`/`atob` key encoding is modelled as comparing plain key strings.
- JavaScript `>>` and `&` on the name length are modelled as division and remainder by 256. These agree for lengths below 2^31.
- The ABI method-selector hash (SHA-512/256 of the signature) is left out. The selector is the constant the page hard-codes.
- The contract sources use different state keys, and the model follows each source's own keys:
  - The Algorand Python contracts use attribute names ("price", "cancellation_deadline").
  - The PyTeal contracts use "Price", "Supply", "Sold", "Organizer".
  - The events page reads PyTeal keys and raw `Itob(i)` registry keys.
  - The registry reader in `frontend/utils/events.ts` and the create-event page use the ARC-4 "events" prefix. The create-event page falls back to the PyTeal "EventCount" key but still names an "events"-prefixed box.
- Re-running `create_event` keeps the existing ticket boxes, so later purchases overwrite them. The model states this as it is (`IndexedTicketManager.IndexedTicketManager.CreateEvent` keeps `boxes`); it proves the box layout only for the usual first call.
- The refund dialog passes the ticket's index and a "tickets"+index box. The algopy contract keys tickets by asset id. The model states the call the dialog builds; `Refund.IntendedMatchesContract` relates the offer to the contract for a ticket identified by its asset id.
- Pages and components outside the core are not part of this model: my-events, my-tickets, the event detail page, the verify page, the resale dialog, the header, wallet provider, and deploy scripts.
- Dashboard.CalculateStats: the average price and the sell-through rate are not stated (floating point).
- Dashboard.DecodeTicketBox: the asset id and resale price are stated through `Dashboard.DecodeIndexedBox` and `Dashboard.AsWrittenLoadFails`, not in its own contract.

## Findings

| source | as written | input that shows it | evidently intended | confidence | as-written member | corrected member |
|---|---|---|---|---|---|---|
| frontend/app/events/page.tsx:211-216 | the purchase references box "tickets"+be64(Sold) with the Sold read before the call | on a fresh event (Sold = 0) the call references "tickets"+be64(0), while `buy_ticket` increments Sold first and writes "tickets"+be64(1) | reference "tickets"+be64(Sold + 1), the box the contract writes | not executed | EventsPage.BuyBoxKeyMissesWrite | EventsPage.SubmitPurchase |
| frontend/utils/events.ts:62-64 | the name length is read from bytes 8 and 9 and the name from offset 10 | the ARC-4 registry stores app 7 named "ab" as be64(7), 00 0A, 00 02, 'a', 'b'; the parse lists the name as bytes 00 02 'a' 'b' | skip the two-byte head offset: the length is at bytes 10 and 11, the name from offset 12 | not executed | EventsUtil.ParseEventBoxMisreadsName | EventsUtil.ParseEventBoxArc4Inverts |
| frontend/components/RefundModal.tsx:54 | the deadline is read from the key "Deadline" | the only contract with `cancel_ticket` names it "cancellation_deadline", so the deadline reads 0 and `canCancel` is false at every time | read "cancellation_deadline", and offer cancellation for Pending tickets before it | not executed | Refund.AsWrittenNeverCancels | Refund.IntendedMatchesContract |
| frontend/app/dashboard/page.tsx:235-236 | the resale price is decoded from bytes 41 to 49 | the deployed contract's boxes are 41 bytes, so the slice is empty and `decodeUint64` throws for the first ticket; an event with one sale lists no tickets | treat a missing resale price as 0 | not executed | Dashboard.AsWrittenLoadFails | Dashboard.ZeroWhenAbsentListsAll |
