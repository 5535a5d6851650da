/**
 * The browser's local key-value store as the components use it: three keys holding JSON.
 *   'userNFTs'      a flat array of created-NFT records (written by the create form),
 *   'purchasedNFTs' an object from owner address to that owner's minted records
 *                   (written by the marketplace, read by "My Robots"),
 *   'walletData'    the connected account, of which only `address` is read.
 * Serialisation is not modelled: a key is missing, holds text that does not parse, or
 * holds the parsed value.
 */
module Storage {
  import opened Ether

  datatype Stored<T> = Missing | Malformed | Parsed(value: T)

  /** How one `setItem` call ends: the value is written, or the browser refuses it (for
      example a value over the site's storage quota) and the call throws. */
  datatype SetItem = Written | QuotaExceeded

  /** A record the marketplace saves after a confirmed mint. */
  datatype PurchasedNFT = PurchasedNFT(
    tokenId: nat,
    title: string,
    image: string,
    creator: string,
    price: Decimal,
    purchaseDate: string,
    owner: string,
    metadataURI: string)

  /** A record the create form saves after a confirmed creation. */
  datatype NFTMetadata = NFTMetadata(
    id: string,
    name: string,
    description: string,
    imageData: string,
    owner: string,
    price: string,
    createdAt: int,
    txHash: string)

  /** The parsed 'purchasedNFTs' object: owner address to that owner's records. */
  type PurchasedTable = map<string, seq<PurchasedNFT>>

  class LocalStore {
    var userNFTs: Stored<seq<NFTMetadata>>
    var purchasedNFTs: Stored<PurchasedTable>
    var walletData: Stored<string>

    constructor (walletData: Stored<string>)
      ensures userNFTs == Missing && purchasedNFTs == Missing
      ensures this.walletData == walletData
    {
      userNFTs := Missing;
      purchasedNFTs := Missing;
      this.walletData := walletData;
    }
  }

  /** What a readable 'purchasedNFTs' key parses to; a missing key reads as `{}`. */
  function TableOf(blob: Stored<PurchasedTable>): PurchasedTable
    requires !blob.Malformed?
  {
    if blob.Parsed? then blob.value else map[]
  }

  /** `table[owner] || []`: an owner without an entry has no records. */
  function OwnerRecords(table: PurchasedTable, owner: string): seq<PurchasedNFT> {
    if owner in table then table[owner] else []
  }

  /** The new contents of 'purchasedNFTs' after saving `rec` for its owner. Unreadable
      contents make the parse throw; the error is caught and nothing is written. */
  function SavePurchased(blob: Stored<PurchasedTable>, rec: PurchasedNFT): (r: Stored<PurchasedTable>)
    ensures blob.Malformed? <==> r.Malformed?
    ensures blob.Malformed? ==> r == blob
    ensures !blob.Malformed? ==>
      && r.Parsed?
      && r.value.Keys == TableOf(blob).Keys + {rec.owner}
      && OwnerRecords(r.value, rec.owner) == OwnerRecords(TableOf(blob), rec.owner) + [rec]
      && forall k :: k != rec.owner ==> OwnerRecords(r.value, k) == OwnerRecords(TableOf(blob), k)
  {
    match blob
    case Malformed => blob
    case _ =>
      var table := TableOf(blob);
      Parsed(table[rec.owner := OwnerRecords(table, rec.owner) + [rec]])
  }

  /** What a readable 'userNFTs' key parses to; a missing key reads as `[]`. */
  function CreatedOf(blob: Stored<seq<NFTMetadata>>): seq<NFTMetadata>
    requires !blob.Malformed?
  {
    if blob.Parsed? then blob.value else []
  }
}
