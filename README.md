# Guestbook contract model

A Dafny model of the on-chain guestbook contract `Comment` (SmartPy, Tezos).
Its storage holds one field, `commentList`, a list of comment records. Each record has an address, a date and a text. The contract's only entry point, `addComment`, pushes a new record on top of that list. The record's address is the caller (`sp.sender`) and its date is the current block time (`sp.now`). Its text is the call parameter. SmartPy's list `push` prepends, so the newest comment comes first.

The contract is the class `Guestbook.Guestbook`. Its field `commentList: seq<Comment>` starts empty, and its method `AddComment(sender, now, text)` updates that field in place. The chain runtime's `sp.sender` and `sp.now` become the method's parameters. A ghost `log` keeps the accepted calls. The object invariant `Valid()` ties the storage to the specification function `Run`, which replays those calls from the initial storage. The lemmas about `Run` state the ordering, the preservation of earlier storage and the faithfulness of the log.

## Model

| member | source | states |
|---|---|---|
| `Guestbook.Guestbook.constructor` | contract/guestbook.py:5-11 | Origination leaves the one storage field `commentList` empty and the call log empty, so the invariant holds from the start |
| `Guestbook.Guestbook.AddComment` | contract/guestbook.py:13-19 | The new `commentList` is the old one with one record (caller, block time, text) pushed on top. The call is appended to the log and the invariant `commentList == Run(log)` is kept. Only `this` is modified. No precondition beyond the object invariant, so every sender and every Michelson string text is accepted, the empty text included. The text has type `MichelsonString`: printable ASCII and newline, the values of the parameter's Michelson `string` type |
| `Guestbook.Record` | contract/guestbook.py:15-19 | The stored record's address is the caller, its date is the block time and its text is the parameter, each taken unchanged |
| `Guestbook.Step` | contract/guestbook.py:15 | After one push the list is one longer. Its head is the new record and its tail is the previous list, unchanged and in the same order. The function is total: there is no guard |
| `Guestbook.Run` | contract/guestbook.py:8-19 | After any sequence of calls from the empty initial storage, the list holds exactly one record per call |
| `Guestbook.RunAt` | contract/guestbook.py:15 | Newest first: position i of the storage holds the record of the i-th most recent call |
| `Guestbook.RunKeepsHistory` | contract/guestbook.py:15 | Later calls never change earlier records. The storage after the first k calls is exactly the tail of the storage after all of them |
| `Guestbook.RunInjective` | contract/guestbook.py:15-19 | The storage is a faithful log. Two call histories that leave equal storage are equal |
| `Guestbook.Scenario` | contract/guestbook.py:21-32 | Originating the contract and calling it with 'Hello' and then 'Hello Jua' from two different senders leaves exactly two records: 'Hello Jua' first, each with its own sender and block time. The result agrees with `Run` on those two calls |

## Left out

- The SmartPy compiler flag `initial-cast` and the scenario's heading are compiler and test-harness machinery with no behaviour in storage.
- The tez amount attached to a call and the contract's balance are not modelled. `addComment` never inspects `sp.amount`, so any amount sent is kept in the balance, and no entry point withdraws it.
- The chain runtime's `sp.sender` and `sp.now` are not modelled. They are parameters, and any address string and any integer timestamp are allowed.
- Scenario: the test scenario does not set the block time, so the model takes the two times as parameters `t1` and `t2`. Address values are kept as plain strings, and their Tezos encoding is not checked.
- Compilation to Michelson is not modelled. This includes the name the compiled entry point is called by, and Tezos gas, storage fees and operation size limits.
- pages/index.tsx is not part of this model. It is a web front end: it connects the wallet, reads the balance and storage, and submits and confirms the call. All of that consists of calls into wallet and network libraries.
