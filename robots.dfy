/**
 * The "My Robots" page: it reads the connected address from 'walletData' and shows that
 * owner's records from 'purchasedNFTs', or a placeholder card when it has none.
 */
module Robots {
  import opened Wrappers
  import opened Storage

  /** The records the page takes for `address`: only a readable table with a truthy entry
      for a non-empty address yields anything; otherwise the list is left as it is. */
  function Lookup(blob: Stored<PurchasedTable>, address: string): (r: Option<seq<PurchasedNFT>>)
    ensures r.Some? <==> address != "" && blob.Parsed? && address in blob.value
    ensures r.Some? ==> r.value == blob.value[address]
  {
    match blob
    case Parsed(table) => if address != "" && address in table then Some(table[address]) else None
    case _ => None
  }

  /** After the marketplace saves a record, its owner's view ends with that record, after
      all the records the owner had before. */
  lemma SavedRecordIsShownLast(blob: Stored<PurchasedTable>, rec: PurchasedNFT)
    requires !blob.Malformed? && rec.owner != ""
    ensures Lookup(SavePurchased(blob, rec), rec.owner) == Some(OwnerRecords(TableOf(blob), rec.owner) + [rec])
  {
    var after := SavePurchased(blob, rec);
    assert rec.owner in after.value;
    assert after.value[rec.owner] == OwnerRecords(after.value, rec.owner);
  }

  /** A save for one owner changes nothing that any other address is shown. */
  lemma SaveInvisibleToOthers(blob: Stored<PurchasedTable>, rec: PurchasedNFT, address: string)
    requires address != rec.owner
    ensures Lookup(SavePurchased(blob, rec), address) == Lookup(blob, address)
  {
    if !blob.Malformed? {
      var after := SavePurchased(blob, rec);
      assert address in after.value <==> address in TableOf(blob);
      assert address in after.value ==> after.value[address] == OwnerRecords(after.value, address);
      assert address in TableOf(blob) ==> TableOf(blob)[address] == OwnerRecords(TableOf(blob), address);
    }
  }

  datatype Card = Placeholder | RobotCard(title: string, image: string, number: nat)

  /** The cards rendered for the list: the placeholder exactly when the list is empty,
      otherwise one card per record numbered from 1. */
  function Cards(list: seq<PurchasedNFT>): (cards: seq<Card>)
    ensures cards == [Placeholder] <==> list == []
    ensures list != [] ==>
      && |cards| == |list|
      && forall i :: 0 <= i < |list| ==> cards[i] == RobotCard(list[i].title, list[i].image, i + 1)
  {
    if list == [] then [Placeholder]
    else
      var cards := seq(|list|, i requires 0 <= i < |list| => RobotCard(list[i].title, list[i].image, i + 1));
      assert cards[0] != Placeholder;
      cards
  }

  class MyRobots {
    var purchasedNFTs: seq<PurchasedNFT>
    var walletAddress: string
    const store: LocalStore

    constructor (store: LocalStore)
      ensures purchasedNFTs == [] && walletAddress == "" && this.store == store
    {
      purchasedNFTs := [];
      walletAddress := "";
      this.store := store;
    }

    /** One run of the page's effect. The address it looks up is the one the effect closed
        over, i.e. the value before this run stores the address read from 'walletData'.
        Unreadable 'walletData' throws out of the effect (`crashed`), changing nothing;
        unreadable 'purchasedNFTs' is caught and leaves the list as it is. */
    method LoadPurchased() returns (crashed: bool)
      modifies this
      ensures crashed <==> store.walletData.Malformed?
      ensures crashed ==> purchasedNFTs == old(purchasedNFTs) && walletAddress == old(walletAddress)
      ensures !crashed ==>
        walletAddress == (if store.walletData.Parsed? then store.walletData.value else old(walletAddress))
      ensures !crashed ==>
        purchasedNFTs == (match Lookup(store.purchasedNFTs, old(walletAddress))
                          case Some(records) => records
                          case None => old(purchasedNFTs))
    {
      var address := walletAddress;
      match store.walletData {
        case Malformed =>
          return true;
        case Parsed(stored) =>
          walletAddress := stored;
        case Missing =>
      }
      crashed := false;
      if store.purchasedNFTs.Malformed? {
        return;
      }
      var allStored := TableOf(store.purchasedNFTs);
      if address != "" && address in allStored {
        purchasedNFTs := allStored[address];
      }
    }
  }
}
