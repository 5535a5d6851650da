/**
 * The "Create an NFT" form: field validation with one message per field, the image-upload
 * guard, and the create flow validate -> wallet check -> createNFT call -> confirmation ->
 * append to the flat 'userNFTs' list -> reset.
 *
 * Address syntax (`ethers.isAddress`, an EIP-55 checksum test) and the numeric reading of
 * the price (`Number(price)` with `isNaN` and `<= 0`) are passed in as predicates.
 */
module CreateNFT {
  import opened Wrappers
  import opened Text
  import opened Storage
  import opened Chain

  const NameRequired := "Name is required"
  const OwnerRequired := "Owner address is required"
  const InvalidAddress := "Invalid Ethereum address"
  const PriceRequired := "Price is required"
  const PriceNotPositive := "Price must be a positive number"
  const ImageRequired := "Image is required"

  /** Largest accepted upload: 10 MiB. */
  const MaxImageBytes: nat := 10 * 1024 * 1024
  const AllowedImageTypes: set<string> := {"image/jpeg", "image/png", "image/gif"}

  /** One optional message per validated field; `description` has none. */
  datatype FormErrors = FormErrors(name: Option<string>, owner: Option<string>, price: Option<string>, image: Option<string>)

  const NoErrors := FormErrors(None, None, None, None)

  datatype FormFields = FormFields(name: string, owner: string, price: string, description: string, imageData: string)

  const EmptyFields := FormFields("", "", "", "", "")

  function NameError(name: string): (e: Option<string>)
    ensures e.Some? <==> AllWhitespace(name)
    ensures e.Some? ==> e.value == NameRequired
  {
    if IsBlank(name) then Some(NameRequired) else None
  }

  /** A blank owner is "required"; only a non-blank owner is checked as an address. */
  function OwnerError(owner: string, isAddress: string -> bool): (e: Option<string>)
    ensures e == Some(OwnerRequired) <==> AllWhitespace(owner)
    ensures e == Some(InvalidAddress) <==> !AllWhitespace(owner) && !isAddress(owner)
    ensures e == None <==> !AllWhitespace(owner) && isAddress(owner)
  {
    if IsBlank(owner) then Some(OwnerRequired)
    else if !isAddress(owner) then Some(InvalidAddress)
    else None
  }

  /** A blank price is "required"; only a non-blank price is read as a number. */
  function PriceError(price: string, isPositiveNumber: string -> bool): (e: Option<string>)
    ensures e == Some(PriceRequired) <==> AllWhitespace(price)
    ensures e == Some(PriceNotPositive) <==> !AllWhitespace(price) && !isPositiveNumber(price)
    ensures e == None <==> !AllWhitespace(price) && isPositiveNumber(price)
  {
    if IsBlank(price) then Some(PriceRequired)
    else if !isPositiveNumber(price) then Some(PriceNotPositive)
    else None
  }

  /** `!imageData`: only the empty string is missing. */
  function ImageError(imageData: string): (e: Option<string>)
    ensures e.Some? <==> imageData == ""
    ensures e.Some? ==> e.value == ImageRequired
  {
    if imageData == "" then Some(ImageRequired) else None
  }

  /** The errors `validateForm` records for the given fields. */
  function ErrorsFor(f: FormFields, isAddress: string -> bool, isPositiveNumber: string -> bool): (e: FormErrors)
    ensures e == NoErrors <==>
      && !AllWhitespace(f.name)
      && !AllWhitespace(f.owner) && isAddress(f.owner)
      && !AllWhitespace(f.price) && isPositiveNumber(f.price)
      && f.imageData != ""
  {
    FormErrors(NameError(f.name), OwnerError(f.owner, isAddress), PriceError(f.price, isPositiveNumber), ImageError(f.imageData))
  }

  /** The description never influences validation. */
  lemma DescriptionNotValidated(f: FormFields, d: string, isAddress: string -> bool, isPositiveNumber: string -> bool)
    ensures ErrorsFor(f.(description := d), isAddress, isPositiveNumber) == ErrorsFor(f, isAddress, isPositiveNumber)
  {
  }

  /** The file the user picked: its size in bytes and its MIME type. */
  datatype ImageFile = ImageFile(size: nat, mimeType: string)

  datatype UploadOutcome = TooLarge | UnsupportedType | Accepted

  /** The upload guard: size is checked before type. */
  function CheckUpload(file: ImageFile): (o: UploadOutcome)
    ensures o == Accepted <==> file.size <= MaxImageBytes && file.mimeType in AllowedImageTypes
    ensures o == TooLarge <==> file.size > MaxImageBytes
  {
    if file.size > MaxImageBytes then TooLarge
    else if file.mimeType !in AllowedImageTypes then UnsupportedType
    else Accepted
  }

  /** Outcome of one awaited external step: it resolves or it throws. */
  datatype Step = Resolves | Throws

  /** What the wallet, the contract and the clock supply to one create attempt:
      `parseEther(price)` (None when it throws), the createNFT call, `tx.wait()`,
      the transaction hash, `Date.now()` and the `setItem` that stores the record. */
  datatype CreateEnv = CreateEnv(priceWei: Option<nat>, call: Step, confirm: Step, txHash: string, nowMs: int, write: SetItem)

  /** The step of the `try` block that threw. */
  datatype FailStage = PriceConversion | ContractUnbound | CallRejected | NotConfirmed | StoreUnreadable | StoreWriteFailed

  datatype CreateOutcome = FormInvalid | WalletNotConnected | Failed(stage: FailStage) | Created(record: NFTMetadata)

  /** The first step of the create flow that throws, in the order the flow runs them. */
  function FirstFailure(env: CreateEnv, contractBound: bool, saved: Stored<seq<NFTMetadata>>): (r: Option<FailStage>)
    ensures r == None <==>
      && env.priceWei.Some? && contractBound && env.call.Resolves? && env.confirm.Resolves?
      && !saved.Malformed? && env.write.Written?
    ensures r == Some(StoreUnreadable) ==> env.confirm.Resolves?
    ensures r == Some(StoreWriteFailed) <==>
      && env.priceWei.Some? && contractBound && env.call.Resolves? && env.confirm.Resolves?
      && !saved.Malformed? && env.write.QuotaExceeded?
  {
    if env.priceWei.None? then Some(PriceConversion)
    else if !contractBound then Some(ContractUnbound)
    else if env.call.Throws? then Some(CallRejected)
    else if env.confirm.Throws? then Some(NotConfirmed)
    else if saved.Malformed? then Some(StoreUnreadable)
    else if env.write.QuotaExceeded? then Some(StoreWriteFailed)
    else None
  }

  /** Whether the attempt reached the contract's createNFT. */
  predicate CallIssued(o: CreateOutcome) {
    o.Created? || (o.Failed? && o.stage in {CallRejected, NotConfirmed, StoreUnreadable, StoreWriteFailed})
  }

  /** The toast shown at the end of an attempt. */
  function Toast(o: CreateOutcome): (t: string)
    ensures t == "NFT created successfully!" <==> o.Created?
  {
    match o
    case FormInvalid => "Please fix the form errors"
    case WalletNotConnected => "Wallet not connected"
    case Failed(_) => "Failed to create NFT"
    case Created(_) => "NFT created successfully!"
  }

  class Form {
    var name: string
    var owner: string
    var price: string
    var description: string
    var imageData: string
    var errors: FormErrors
    var isLoading: bool
    /** Whether `contract` is set. */
    var contractBound: bool
    /** Whether both `provider` and `signer` are set. */
    var walletReady: bool
    const store: LocalStore

    constructor (store: LocalStore)
      ensures Fields() == EmptyFields && errors == NoErrors
      ensures !isLoading && !contractBound && !walletReady
      ensures this.store == store
    {
      name, owner, price, description, imageData := "", "", "", "", "";
      errors := NoErrors;
      isLoading, contractBound, walletReady := false, false, false;
      this.store := store;
    }

    function Fields(): FormFields
      reads this`name, this`owner, this`price, this`description, this`imageData
    {
      FormFields(name, owner, price, description, imageData)
    }

    /** The effect that binds the contract once the wallet is ready, only when code exists
        at the contract address. `code` is None when `getCode` throws. */
    method BindContract(code: Option<string>)
      modifies this`contractBound
      ensures contractBound == (old(contractBound) || (walletReady && HasCode(code)))
    {
      if !walletReady {
        return;
      }
      if !HasCode(code) {
        return;
      }
      contractBound := true;
    }

    /** `validateForm`: replaces `errors` wholesale and reports whether none was recorded. */
    method ValidateForm(isAddress: string -> bool, isPositiveNumber: string -> bool) returns (valid: bool)
      modifies this`errors
      ensures errors == ErrorsFor(Fields(), isAddress, isPositiveNumber)
      ensures valid <==> errors == NoErrors
    {
      var newErrors := NoErrors;
      if IsBlank(name) {
        newErrors := newErrors.(name := Some(NameRequired));
      }
      if IsBlank(owner) {
        newErrors := newErrors.(owner := Some(OwnerRequired));
      } else if !isAddress(owner) {
        newErrors := newErrors.(owner := Some(InvalidAddress));
      }
      if IsBlank(price) {
        newErrors := newErrors.(price := Some(PriceRequired));
      } else if !isPositiveNumber(price) {
        newErrors := newErrors.(price := Some(PriceNotPositive));
      }
      if imageData == "" {
        newErrors := newErrors.(image := Some(ImageRequired));
      }
      errors := newErrors;
      valid := newErrors == NoErrors;
    }

    /** `resetForm`: clears every field and every error. */
    method ResetForm()
      modifies this
      ensures Fields() == EmptyFields && errors == NoErrors
      ensures isLoading == old(isLoading) && contractBound == old(contractBound) && walletReady == old(walletReady)
    {
      name := "";
      owner := "";
      price := "";
      description := "";
      imageData := "";
      errors := NoErrors;
    }

    /** `handleImageUpload`: a rejected file changes nothing; an accepted one becomes the
        image (its data URL is `dataUrl`) and clears the image error. */
    method HandleImageUpload(file: ImageFile, dataUrl: string) returns (outcome: UploadOutcome)
      modifies this
      ensures outcome == CheckUpload(file)
      ensures outcome != Accepted ==> Fields() == old(Fields()) && errors == old(errors)
      ensures outcome == Accepted ==>
        Fields() == old(Fields()).(imageData := dataUrl) && errors == old(errors).(image := None)
      ensures isLoading == old(isLoading) && contractBound == old(contractBound) && walletReady == old(walletReady)
    {
      if file.size > MaxImageBytes {
        return TooLarge;
      }
      if file.mimeType !in AllowedImageTypes {
        return UnsupportedType;
      }
      imageData := dataUrl;
      errors := errors.(image := None);
      outcome := Accepted;
    }

    /** `handleCreateNFT`. */
    method HandleCreateNFT(isAddress: string -> bool, isPositiveNumber: string -> bool, env: CreateEnv)
      returns (outcome: CreateOutcome)
      modifies this, store
      ensures errors == ErrorsFor(old(Fields()), isAddress, isPositiveNumber)
      ensures outcome == FormInvalid <==> errors != NoErrors
      ensures outcome == WalletNotConnected <==> errors == NoErrors && !walletReady
      // rejected before the wallet is used: nothing else happens, `isLoading` is not touched
      ensures outcome == FormInvalid || outcome == WalletNotConnected ==>
        Fields() == old(Fields()) && isLoading == old(isLoading) && store.userNFTs == old(store.userNFTs)
      // a step of the attempt threw: nothing saved, fields kept for a retry
      ensures outcome.Failed? ==>
        && Some(outcome.stage) == FirstFailure(env, contractBound, old(store.userNFTs))
        && Fields() == old(Fields()) && !isLoading && store.userNFTs == old(store.userNFTs)
      // confirmed: exactly one record appended at the end, then the form is cleared
      ensures outcome.Created? ==>
        && FirstFailure(env, contractBound, old(store.userNFTs)) == None
        && outcome.record == NFTMetadata(env.txHash, old(name), old(description), old(imageData),
                                         old(owner), old(price), env.nowMs, env.txHash)
        && store.userNFTs == Parsed(CreatedOf(old(store.userNFTs)) + [outcome.record])
        && Fields() == EmptyFields && !isLoading
      // `createNFT` is reached only by a valid form with a wallet, a convertible price and a bound contract
      ensures CallIssued(outcome) <==> errors == NoErrors && walletReady && env.priceWei.Some? && contractBound
      // the owner-keyed store that "My Robots" reads is never written here
      ensures store.purchasedNFTs == old(store.purchasedNFTs) && store.walletData == old(store.walletData)
      ensures contractBound == old(contractBound) && walletReady == old(walletReady)
    {
      var valid := ValidateForm(isAddress, isPositiveNumber);
      if !valid {
        return FormInvalid;
      }
      if !walletReady {
        return WalletNotConnected;
      }
      isLoading := true;
      outcome := TryCreate(env);
    }

    /** The `try`/`finally` part of `handleCreateNFT`, run with the loading flag set. */
    method TryCreate(env: CreateEnv) returns (outcome: CreateOutcome)
      modifies this, store
      ensures outcome.Failed? || outcome.Created?
      ensures outcome.Failed? ==>
        && Some(outcome.stage) == FirstFailure(env, contractBound, old(store.userNFTs))
        && Fields() == old(Fields()) && errors == old(errors) && store.userNFTs == old(store.userNFTs)
      ensures outcome.Created? ==>
        && FirstFailure(env, contractBound, old(store.userNFTs)) == None
        && outcome.record == NFTMetadata(env.txHash, old(name), old(description), old(imageData),
                                         old(owner), old(price), env.nowMs, env.txHash)
        && store.userNFTs == Parsed(CreatedOf(old(store.userNFTs)) + [outcome.record])
        && Fields() == EmptyFields && errors == NoErrors
      ensures !isLoading
      ensures store.purchasedNFTs == old(store.purchasedNFTs) && store.walletData == old(store.walletData)
      ensures contractBound == old(contractBound) && walletReady == old(walletReady)
    {
      if env.priceWei.None? {
        outcome := Failed(PriceConversion);
      } else if !contractBound {
        outcome := Failed(ContractUnbound);
      } else if env.call.Throws? {
        outcome := Failed(CallRejected);
      } else if env.confirm.Throws? {
        outcome := Failed(NotConfirmed);
      } else {
        var record := NFTMetadata(env.txHash, name, description, imageData, owner, price, env.nowMs, env.txHash);
        var unreadable := store.userNFTs.Malformed?;
        var saved := SaveNFTToLocalStorage(record, env.write);
        if !saved {
          outcome := Failed(if unreadable then StoreUnreadable else StoreWriteFailed);
        } else {
          ResetForm();
          outcome := Created(record);
        }
      }
      isLoading := false;
    }

    /** `saveNFTToLocalStorage`: appends to the flat 'userNFTs' array. Unreadable contents
        make the parse throw and a refused `setItem` throws; the caller's `try` catches
        either, and `saved` is false then. */
    method SaveNFTToLocalStorage(record: NFTMetadata, write: SetItem) returns (saved: bool)
      modifies store
      ensures saved <==> !old(store.userNFTs).Malformed? && write.Written?
      ensures saved ==> store.userNFTs == Parsed(CreatedOf(old(store.userNFTs)) + [record])
      ensures !saved ==> store.userNFTs == old(store.userNFTs)
      ensures store.purchasedNFTs == old(store.purchasedNFTs) && store.walletData == old(store.walletData)
    {
      if store.userNFTs.Malformed? {
        return false;
      }
      var existing := CreatedOf(store.userNFTs);
      existing := existing + [record];
      if write.QuotaExceeded? {
        return false;
      }
      store.userNFTs := Parsed(existing);
      saved := true;
    }
  }
}
