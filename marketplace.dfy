/**
 * The marketplace page: it binds the NFT contract, lists the contract's NFTs as cards,
 * mints a card for the connected account while paying the contract's mint price, and
 * records each confirmed mint under the owner's address in 'purchasedNFTs'.
 */
module MarketPlace {
  import opened Wrappers
  import opened Ether
  import opened Storage

  /** An NFT as `getAllNFTs` returns it; `price` is in wei. */
  datatype ContractNFT = ContractNFT(name: string, imageURL: string, creator: string, price: nat)

  /** The view record of one listed NFT. */
  datatype CollectionNFT = CollectionNFT(
    image: string,
    title: string,
    creator: string,
    price: Decimal,
    priceUSD: string,
    change: int,
    metadataURI: string)

  const NotReadyMessage := "Contract not initialized or wallet not connected"
  const MintedMessage := "NFT Minted successfully!"
  const MintFailedMessage := "Failed to mint NFT. Please try again."

  function ToCollection(nft: ContractNFT): CollectionNFT {
    CollectionNFT(nft.imageURL, nft.name, nft.creator, FormatEther(nft.price), "0", 0, nft.name)
  }

  /** The listing: the contract's NFTs one to one and in order. */
  function Listing(nfts: seq<ContractNFT>): (r: seq<CollectionNFT>)
    ensures |r| == |nfts|
    ensures forall i :: 0 <= i < |nfts| ==>
      && r[i].image == nfts[i].imageURL
      && r[i].title == nfts[i].name
      && r[i].creator == nfts[i].creator
      && r[i].price == FormatEther(nfts[i].price)
      && r[i].priceUSD == "0" && r[i].change == 0
      && r[i].metadataURI == nfts[i].name
  {
    seq(|nfts|, i requires 0 <= i < |nfts| => ToCollection(nfts[i]))
  }

  /** The `price` field of a listing record re-parses to that NFT's wei price in the contract. */
  lemma ListedPriceIsExact(nfts: seq<ContractNFT>, i: nat)
    requires i < |nfts|
    ensures ParseEther(Listing(nfts)[i].price) == Some(nfts[i].price)
  {
    FormatThenParse(nfts[i].price);
  }

  /** A card is owned by the viewer exactly when its creator is the connected address. */
  predicate IsOwned(card: CollectionNFT, account: Option<string>) {
    account.Some? && card.creator == account.value
  }

  /** The value `message` is set to after a failure: the thrown error's own message, or the
      fixed fallback when that message is empty. */
  function ErrorMessage(thrown: string): (m: string)
    ensures m != ""
    ensures thrown != "" ==> m == thrown
    ensures thrown == "" ==> m == MintFailedMessage
  {
    if thrown == "" then MintFailedMessage else thrown
  }

  /** Outcome of one awaited contract step, with the message of what it threw. */
  datatype Call = Resolves | Rejects(message: string)

  /** What one mint attempt is given: the message `parseEther` throws for an unreadable
      price, the `mintNFT` call, `wait()`, the purchase date string, and the `setItem` that
      stores the record. */
  datatype MintEnv = MintEnv(parseError: string, mint: Call, confirm: Call, purchaseDate: string, write: SetItem)

  /** `value` is the wei amount attached to the `mintNFT` call, whenever it was made. */
  datatype MintOutcome =
    | Refused
    | PriceUnreadable
    | MintRejected(value: nat)
    | NotConfirmed(value: nat)
    | Minted(value: nat, record: PurchasedNFT)

  /** Whether the attempt reached the contract's `mintNFT`. */
  predicate MintCalled(o: MintOutcome) {
    o.MintRejected? || o.NotConfirmed? || o.Minted?
  }

  /** `!contract || !accountData?.address`: an unbound contract, no account, or an empty address. */
  predicate ReadyToMint(contractBound: bool, account: Option<string>) {
    contractBound && account.Some? && account.value != ""
  }

  /** The wei amount `parseEther(mintPrice)` gives; an unset price ('') does not parse. */
  function MintValue(mintPrice: Option<Decimal>): Option<nat> {
    if mintPrice.None? then None else ParseEther(mintPrice.value)
  }

  /** The mint attaches the contract's own price: once the price has been read from the
      contract as `w` wei and rendered, re-parsing it gives exactly `w`. */
  lemma MintValueIsContractPrice(w: nat)
    ensures MintValue(Some(FormatEther(w))) == Some(w)
  {
    FormatThenParse(w);
  }

  class Market {
    /** Whether both `provider` and `signer` are set. */
    var walletReady: bool
    /** `accountData?.address`. */
    var account: Option<string>
    /** Whether `contract` is set. */
    var contractBound: bool
    /** `mintPrice`, None while it is still ''. */
    var mintPrice: Option<Decimal>
    var loading: bool
    var message: string
    var availableCollections: seq<CollectionNFT>
    const store: LocalStore

    constructor (store: LocalStore)
      ensures !walletReady && account == None && !contractBound && mintPrice == None
      ensures !loading && message == "" && availableCollections == []
      ensures this.store == store
    {
      walletReady, account, contractBound, mintPrice := false, None, false, None;
      loading, message, availableCollections := false, "", [];
      this.store := store;
    }

    /** The effect that binds the contract (there is no code-presence check here), reads the
        mint price and lists the NFTs. `priceWei` and `allNFTs` are None when the call throws,
        which ends the effect. */
    method InitializeContract(priceWei: Option<nat>, allNFTs: Option<seq<ContractNFT>>)
      modifies this
      ensures !old(walletReady) ==>
        contractBound == old(contractBound) && mintPrice == old(mintPrice)
        && availableCollections == old(availableCollections)
      ensures old(walletReady) ==>
        && contractBound
        && mintPrice == (if priceWei.Some? then Some(FormatEther(priceWei.value)) else old(mintPrice))
        && availableCollections ==
             (if priceWei.Some? && allNFTs.Some? then Listing(allNFTs.value) else old(availableCollections))
      ensures walletReady == old(walletReady) && account == old(account)
      ensures loading == old(loading) && message == old(message)
    {
      if !walletReady {
        return;
      }
      contractBound := true;
      if priceWei.None? {
        return;
      }
      mintPrice := Some(FormatEther(priceWei.value));
      if allNFTs.None? {
        return;
      }
      availableCollections := Listing(allNFTs.value);
    }

    /** `handleMint`. */
    method HandleMint(card: CollectionNFT, env: MintEnv) returns (outcome: MintOutcome)
      modifies this, store
      ensures outcome == Refused <==> !ReadyToMint(contractBound, account)
      ensures outcome == Refused ==> message == NotReadyMessage
      ensures outcome == PriceUnreadable <==> ReadyToMint(contractBound, account) && MintValue(mintPrice).None?
      ensures outcome == PriceUnreadable ==> message == ErrorMessage(env.parseError)
      // the call carries exactly the wei amount the rendered mint price stands for
      ensures MintCalled(outcome) ==> MintValue(mintPrice) == Some(outcome.value)
      ensures outcome.MintRejected? <==> MintCalled(outcome) && env.mint.Rejects?
      ensures outcome.MintRejected? ==> message == ErrorMessage(env.mint.message)
      ensures outcome.NotConfirmed? <==> MintCalled(outcome) && env.mint.Resolves? && env.confirm.Rejects?
      ensures outcome.NotConfirmed? ==> message == ErrorMessage(env.confirm.message)
      // a record is saved only after the mint is confirmed
      ensures outcome.Minted? ==>
        && outcome.record == PurchasedNFT(0, card.title, card.image, card.creator, mintPrice.value,
                                          env.purchaseDate, account.value, card.metadataURI)
        && store.purchasedNFTs ==
             (if env.write.Written? then SavePurchased(old(store.purchasedNFTs), outcome.record)
              else old(store.purchasedNFTs))
        && message == MintedMessage
      ensures !outcome.Minted? ==> store.purchasedNFTs == old(store.purchasedNFTs)
      ensures !loading
      ensures store.userNFTs == old(store.userNFTs) && store.walletData == old(store.walletData)
      ensures walletReady == old(walletReady) && account == old(account) && contractBound == old(contractBound)
      ensures mintPrice == old(mintPrice) && availableCollections == old(availableCollections)
    {
      loading := true;
      message := "Creating NFT...";
      if !contractBound || account.None? || account.value == "" {
        message := NotReadyMessage;
        loading := false;
        return Refused;
      }
      message := "Minting NFT...";
      var value := MintValue(mintPrice);
      if value.None? {
        message := ErrorMessage(env.parseError);
        loading := false;
        return PriceUnreadable;
      }
      if env.mint.Rejects? {
        message := ErrorMessage(env.mint.message);
        loading := false;
        return MintRejected(value.value);
      }
      message := "Waiting for mint confirmation...";
      if env.confirm.Rejects? {
        message := ErrorMessage(env.confirm.message);
        loading := false;
        return NotConfirmed(value.value);
      }
      var record := PurchasedNFT(0, card.title, card.image, card.creator, mintPrice.value,
                                 env.purchaseDate, account.value, card.metadataURI);
      SaveNFTToStorage(record, env.write);
      message := MintedMessage;
      loading := false;
      outcome := Minted(value.value, record);
    }

    /** `saveNFTToStorage`: one write of the whole table, with `rec` appended to its owner's
        records. Unreadable contents and a refused write both throw inside its own `try`,
        so the table is then left as it was and the mint still sets `message` to the success text. */
    method SaveNFTToStorage(rec: PurchasedNFT, write: SetItem)
      modifies store
      ensures store.purchasedNFTs ==
        (if write.Written? then SavePurchased(old(store.purchasedNFTs), rec) else old(store.purchasedNFTs))
      ensures store.userNFTs == old(store.userNFTs) && store.walletData == old(store.walletData)
    {
      if store.purchasedNFTs.Malformed? {
        return;
      }
      var allStored := TableOf(store.purchasedNFTs);
      var walletNFTs := OwnerRecords(allStored, rec.owner);
      var updated := walletNFTs + [rec];
      if write.QuotaExceeded? {
        return;
      }
      store.purchasedNFTs := Parsed(allStored[rec.owner := updated]);
    }
  }
}
