/**
 * Whole-page flows across the components that share one local store: what "My Robots"
 * shows after a mint on the marketplace and after a creation on the create form.
 */
module Scenarios {
  import opened Wrappers
  import opened Ether
  import opened Storage
  import CreateNFT
  import MarketPlace
  import Robots

  /** A confirmed mint from an empty store, paying the contract's price `w`. The record is
      saved under the signer's address, while "My Robots" looks up the address stored in
      'walletData'. Both are compared as exact strings, so the record is shown, as card #1,
      only when the two strings are equal and the write was not refused; otherwise the page
      keeps the placeholder. Either way
      the first run of the page's effect still looks up the empty address it closed over and
      shows the placeholder. On the marketplace the card is marked owned only when its
      creator is the signer, whatever was minted. */
  method MintedNFTShowsInMyRobots(
    card: MarketPlace.CollectionNFT, env: MarketPlace.MintEnv, walletAddress: string, signerAddress: string, w: nat)
    returns (paid: nat, owned: bool, first: seq<Robots.Card>, second: seq<Robots.Card>)
    requires signerAddress != ""
    requires env.mint.Resolves? && env.confirm.Resolves?
    ensures paid == w
    ensures owned <==> card.creator == signerAddress
    ensures first == [Robots.Placeholder]
    ensures walletAddress == signerAddress && env.write.Written? ==>
      second == [Robots.RobotCard(card.title, card.image, 1)]
    ensures walletAddress != signerAddress || env.write.QuotaExceeded? ==> second == [Robots.Placeholder]
  {
    var store := new LocalStore(Parsed(walletAddress));
    var market := new MarketPlace.Market(store);
    market.walletReady := true;
    market.account := Some(signerAddress);
    market.InitializeContract(Some(w), Some([]));
    MarketPlace.MintValueIsContractPrice(w);
    var outcome := market.HandleMint(card, env);
    paid := outcome.value;
    owned := MarketPlace.IsOwned(card, market.account);
    var robots := new Robots.MyRobots(store);
    var crashed := robots.LoadPurchased();
    first := Robots.Cards(robots.purchasedNFTs);
    crashed := robots.LoadPurchased();
    if env.write.QuotaExceeded? {
      assert store.purchasedNFTs == Missing;
    } else if walletAddress == signerAddress {
      Robots.SavedRecordIsShownLast(Missing, outcome.record);
    } else {
      Robots.SaveInvisibleToOthers(Missing, outcome.record, walletAddress);
    }
    second := Robots.Cards(robots.purchasedNFTs);
  }

  /** A successful creation is stored only in the flat 'userNFTs' list, which "My Robots"
      never reads: the creator's page keeps showing the placeholder. */
  method CreatedNFTNeverShowsInMyRobots(
    f: CreateNFT.FormFields, isAddress: string -> bool, isPositiveNumber: string -> bool,
    env: CreateNFT.CreateEnv, address: string)
    returns (outcome: CreateNFT.CreateOutcome, cards: seq<Robots.Card>)
    requires CreateNFT.ErrorsFor(f, isAddress, isPositiveNumber) == CreateNFT.NoErrors
    requires CreateNFT.FirstFailure(env, true, Missing) == None
    ensures outcome.Created?
    ensures cards == [Robots.Placeholder]
  {
    var store := new LocalStore(Parsed(address));
    var form := new CreateNFT.Form(store);
    form.name, form.owner, form.price, form.description, form.imageData :=
      f.name, f.owner, f.price, f.description, f.imageData;
    form.walletReady := true;
    form.BindContract(Some("0x6080"));
    assert form.Fields() == f;
    outcome := form.HandleCreateNFT(isAddress, isPositiveNumber, env);
    assert store.purchasedNFTs == Missing;
    var robots := new Robots.MyRobots(store);
    var crashed := robots.LoadPurchased();
    crashed := robots.LoadPurchased();
    cards := Robots.Cards(robots.purchasedNFTs);
  }
}
