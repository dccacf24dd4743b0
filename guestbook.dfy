/** A model of the SmartPy guestbook contract `Comment`: its storage is one list
    of comment records, and its single entry point `addComment` pushes a new
    record, stamped with the caller and the block time, on top of that list.
    `sp.sender` and `sp.now` belong to the chain runtime and are parameters here. */
module Guestbook {

  /** Michelson's `string` type admits only printable ASCII (space to tilde)
      and the newline; a parameter with any other character is refused before
      the entry point runs. */
  predicate IsMichelsonString(s: string)
  {
    forall i | 0 <= i < |s| :: s[i] == '\n' || ' ' <= s[i] <= '~'
  }

  type MichelsonString = s: string | IsMichelsonString(s)

  /** One stored comment record: the caller's address, the block time (a Tezos
      timestamp, an unbounded integer number of seconds) and the text. */
  datatype Comment = Comment(address: string, date: int, text: MichelsonString)

  /** One invocation of `addComment`: who called it, when, and the `text` parameter. */
  datatype Call = Call(sender: string, now: int, text: MichelsonString)

  /** The record an invocation stores. */
  function Record(call: Call): (c: Comment)
    ensures c.address == call.sender && c.date == call.now && c.text == call.text
  {
    Comment(call.sender, call.now, call.text)
  }

  /** The storage after one `addComment`: SmartPy's `push` puts the new record
      at the head, and the previous list follows unchanged. There is no guard:
      every sender, every time and every Michelson string (the empty one too)
      is accepted. */
  function Step(storage: seq<Comment>, call: Call): (r: seq<Comment>)
    ensures |r| == |storage| + 1
    ensures r[0] == Record(call)
    ensures r[1..] == storage
  {
    [Record(call)] + storage
  }

  /** The storage reached from the initial (empty) storage by the given calls,
      listed oldest first. */
  function Run(calls: seq<Call>): (r: seq<Comment>)
    ensures |r| == |calls|
    decreases |calls|
  {
    if calls == [] then [] else Step(Run(calls[..|calls| - 1]), calls[|calls| - 1])
  }

  /** The list is newest first: position i holds the record of the i-th most
      recent call. */
  lemma {:induction false} RunAt(calls: seq<Call>, i: nat)
    requires i < |calls|
    ensures Run(calls)[i] == Record(calls[|calls| - 1 - i])
  {
    var n := |calls|;
    var earlier := calls[..n - 1];
    if i > 0 {
      RunAt(earlier, i - 1);
      assert Run(calls)[i] == Run(earlier)[i - 1];
    }
  }

  /** Later calls never alter what earlier calls stored: the storage after the
      first k calls is, unchanged and in the same order, the tail of the
      storage after all of them. */
  lemma {:induction false} RunKeepsHistory(calls: seq<Call>, k: nat)
    requires k <= |calls|
    ensures Run(calls)[|calls| - k..] == Run(calls[..k])
  {
    var n := |calls|;
    if k < n {
      var earlier := calls[..n - 1];
      RunKeepsHistory(earlier, k);
      assert earlier[..k] == calls[..k];
      assert Run(calls)[1..] == Run(earlier);
      assert Run(calls)[n - k..] == Run(earlier)[n - 1 - k..];
    } else {
      assert calls[..k] == calls;
    }
  }

  /** The storage is a faithful log: two histories of calls that leave the
      same storage are the same history. */
  lemma {:induction false} RunInjective(a: seq<Call>, b: seq<Call>)
    requires Run(a) == Run(b)
    ensures a == b
  {
    var n := |a|;
    forall i | 0 <= i < n
      ensures a[i] == b[i]
    {
      RunAt(a, n - 1 - i);
      RunAt(b, n - 1 - i);
    }
  }

  /** The deployed contract. Its storage has the one field `commentList`; the
      ghost `log` records the accepted calls, oldest first. */
  class Guestbook {
    var commentList: seq<Comment>
    ghost var log: seq<Call>

    /** The storage is exactly what the logged calls produce. */
    ghost predicate Valid()
      reads this
    {
      commentList == Run(log)
    }

    /** Origination: the storage starts as the empty list. */
    constructor ()
      ensures Valid()
      ensures commentList == [] && log == []
    {
      commentList := [];
      log := [];
    }

    /** The `addComment` entry point: pushes the record of (sender, now, text)
        on top of `commentList`, and changes nothing else in storage. */
    method AddComment(sender: string, now: int, text: MichelsonString)
      requires Valid()
      modifies this
      ensures Valid()
      ensures log == old(log) + [Call(sender, now, text)]
      ensures commentList == Step(old(commentList), Call(sender, now, text))
    {
      commentList := [Comment(sender, now, text)] + commentList;
      log := log + [Call(sender, now, text)];
      assert log[..|log| - 1] == old(log);
    }
  }

  const FirstSender := "tz1W4W2yFAHz7iGyQvFys4K7Df9mZL6cSKCp"
  const SecondSender := "tz1W4W2yFAHz7iGyQvFys433Df9mZL6cSKCp"

  /** The contract's test scenario: originate, then 'Hello' from one address
      and 'Hello Jua' from another, at block times t1 and t2. The storage then
      holds exactly two records, the later one first. */
  method Scenario(t1: int, t2: int) returns (storage: seq<Comment>)
    ensures storage == [Comment(SecondSender, t2, "Hello Jua"), Comment(FirstSender, t1, "Hello")]
    ensures storage == Run([Call(FirstSender, t1, "Hello"), Call(SecondSender, t2, "Hello Jua")])
  {
    var c := new Guestbook();
    c.AddComment(FirstSender, t1, "Hello");
    c.AddComment(SecondSender, t2, "Hello Jua");
    storage := c.commentList;
  }
}
