/** The counterparty rule of both indexers (`extractInteractors`): a
    transaction received by the wallet names its sender; a transaction sent by
    the wallet names the other owners that gained a positive amount. The raw
    strings are kept, only the comparisons use normalized forms. */
module Interactors {
  import opened Wrappers
  import opened Seqs
  import opened Strings
  import opened Address

  /** What the rule reads from one raw balance change: the owner's address
      field (absent when the owner is not an address) and the raw amount. */
  datatype OwnerAmount = OwnerAmount(owner: Option<string>, amount: int)

  /** The change credits a counterparty of a sending wallet: the owner is
      present, is not the wallet once normalized, and the amount is positive. */
  predicate IsRecipient(c: OwnerAmount, normUser: string) {
    Truthy(c.owner) && Normalize(c.owner.value) != normUser && c.amount > 0
  }

  /** The raw owner strings of the crediting changes, in order, with repeats. */
  function Recipients(changes: seq<OwnerAmount>, normUser: string): seq<string>
  {
    if changes == [] then []
    else
      var c := changes[|changes| - 1];
      Recipients(changes[..|changes| - 1], normUser)
        + (if IsRecipient(c, normUser) then [c.owner.value] else [])
  }

  lemma {:induction false} RecipientsMembers(changes: seq<OwnerAmount>, normUser: string)
    ensures forall x :: x in Recipients(changes, normUser) <==>
      exists c :: c in changes && IsRecipient(c, normUser) && c.owner.value == x
  {
    if changes != [] {
      var p := changes[..|changes| - 1];
      RecipientsMembers(p, normUser);
      assert changes == p + [changes[|changes| - 1]];
    }
  }

  /** Changes with no owner address credit nobody. */
  lemma {:induction false} NoOwnersNoRecipients(changes: seq<OwnerAmount>, normUser: string)
    requires forall i :: 0 <= i < |changes| ==> changes[i].owner.None?
    ensures Recipients(changes, normUser) == []
  {
    if changes != [] {
      NoOwnersNoRecipients(changes[..|changes| - 1], normUser);
    }
  }

  lemma RecipientsStep(changes: seq<OwnerAmount>, i: nat, normUser: string)
    requires i < |changes|
    ensures Recipients(changes[..i + 1], normUser)
         == Recipients(changes[..i], normUser)
            + (if IsRecipient(changes[i], normUser) then [changes[i].owner.value] else [])
  {
    assert changes[..i + 1][..i] == changes[..i];
  }

  lemma DedupStep(s: seq<string>, x: string)
    ensures Dedup(s + [x]) == if x in Dedup(s) then Dedup(s) else Dedup(s) + [x]
  {
    assert (s + [x])[..|s|] == s;
  }

  /** The interactor list as a value. */
  function InteractorsOf(sender: Option<string>, user: string, changes: seq<OwnerAmount>): seq<string>
  {
    var normUser := Normalize(user);
    if !Truthy(sender) then []
    else if Normalize(sender.value) != normUser then [sender.value]
    else Dedup(Recipients(changes, normUser))
  }

  /** `extractInteractors(tx, userAddress, balanceChanges)`, filling a set in
      place. With no sender the list is empty; a sender other than the wallet
      is the whole list, as given; when the wallet sent, the list holds each
      crediting owner once, as given, in order of first appearance. */
  method ExtractInteractors(sender: Option<string>, user: string, changes: seq<OwnerAmount>)
    returns (r: seq<string>)
    ensures r == InteractorsOf(sender, user, changes)
    ensures NoDup(r)
    ensures !Truthy(sender) ==> r == []
    ensures Truthy(sender) && Normalize(sender.value) != Normalize(user) ==> r == [sender.value]
    ensures Truthy(sender) && Normalize(sender.value) == Normalize(user) ==>
      forall x :: x in r <==>
        exists c :: c in changes && IsRecipient(c, Normalize(user)) && c.owner.value == x
  {
    var interactors: seq<string> := [];
    var normalizedUser := Normalize(user);
    if Truthy(sender) && Normalize(sender.value) != normalizedUser {
      interactors := interactors + [sender.value];
    }
    if Truthy(sender) && Normalize(sender.value) == normalizedUser {
      ghost var found: seq<string> := [];
      var i := 0;
      while i < |changes|
        invariant 0 <= i <= |changes|
        invariant found == Recipients(changes[..i], normalizedUser)
        invariant interactors == Dedup(found)
      {
        var change := changes[i];
        RecipientsStep(changes, i, normalizedUser);
        if Truthy(change.owner) {
          var normRecipient := Normalize(change.owner.value);
          if normRecipient != normalizedUser && change.amount > 0 {
            DedupStep(found, change.owner.value);
            found := found + [change.owner.value];
            if change.owner.value !in interactors {
              interactors := interactors + [change.owner.value];
            }
          }
        }
        i := i + 1;
      }
      assert changes[..|changes|] == changes;
      DedupMembers(found);
      RecipientsMembers(changes, normalizedUser);
    }
    r := interactors;
  }
}
