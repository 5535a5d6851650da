# RoboMarket front end — a Dafny model of its client-side logic

RoboMarket is a Next.js front end for minting NFT "robots", listing a marketplace and
showing crowdfunding campaigns. The wallet, the smart contracts and the browser's
`localStorage` do the real work; the components sequence calls to them and keep a small
amount of state. This project models that state and sequencing for four components:

- **Create NFT form** (`app/components/CreateNFT.tsx`): per-field validation with a fixed
  message precedence, the image-upload guard, and the flow
  validate → wallet check → `createNFT` → `wait()` → append to `'userNFTs'` → reset.
  The form is the class `CreateNFT.Form`.
- **Marketplace** (`app/components/MarketPlace.tsx`): the listing of the contract's NFTs,
  the "owned by you" test, the mint flow and `saveNFTToStorage`, which appends to one
  owner's records in `'purchasedNFTs'`. The page is the class `MarketPlace.Market`.
- **My Robots** (`app/components/Robots.tsx`): the effect that reads the address from
  `'walletData'` and the owner's records from `'purchasedNFTs'`, and the card list with its
  placeholder. The page is the class `Robots.MyRobots`.
- **Crowdfunding** (`app/components/CrowdFunding.tsx`): the contract binding gated on
  deployed code, and the progress, days-left and patron figures of each campaign card.

`localStorage` is one shared object, `Storage.LocalStore`, with a field per key. Each key
is `Missing`, `Malformed` (the stored text does not parse) or `Parsed(value)`. Every page
class holds the same store, so the model can follow a record from the page that writes it
to the page that reads it (module `Scenarios`).

Wallet, contract and clock results are parameters. A call that can throw is a `Step` or
`Call` value, `getCode` gives an `Option<string>`, and `Date.now()` is an `int` of
milliseconds. `ethers.isAddress` and the numeric price test (`Number(price)` with `isNaN`
and `<= 0`) are predicates passed in as `string -> bool`. Ether amounts follow the
18-decimal rule of `formatEther`/`parseEther`. They are modelled on whole and fractional
digits (`Ether.Decimal`), and the round trip the mint relies on is proved.

Files: `wrappers.dfy` (Option), `arith.dfy` (multiplication and division facts), `chain.dfy`
(the deployed-code test), `text.dfy` (JavaScript `trim`), `ether.dfy`,
`storage.dfy`, `createnft.dfy`, `marketplace.dfy`, `robots.dfy`, `crowdfunding.dfy`,
`scenarios.dfy`.

## Model

| member | source | states |
|---|---|---|
| Text.Trim | app/components/CreateNFT.tsx:104-118 | `s.trim()` is empty exactly when every character of `s` is JavaScript whitespace, so `!s.trim()` means "all whitespace" |
| Ether.FormatEther | app/components/MarketPlace.tsx:117-118 | the rendered amount has the whole ethers `wei / 10^18` and between 1 and 18 fractional digits |
| Ether.ParseEther | app/components/MarketPlace.tsx:150 | parsing succeeds exactly when there are at most 18 fractional digits, and the wei amount then has the given whole ethers |
| Ether.FormatThenParse | app/components/MarketPlace.tsx:117-118 | `parseEther(formatEther(w)) == w` for every wei amount `w` |
| Ether.FormatEtherInjective | app/components/MarketPlace.tsx:117-118 | two different wei amounts never format to the same decimal amount, so the displayed `mintPrice` determines the contract's price |
| Storage.SavePurchased | app/components/MarketPlace.tsx:176-188 | the saving owner's records become the old ones (none for a missing key) plus the new record at the end; every other owner's records are unchanged; unreadable contents are left as they are |
| CreateNFT.NameError | app/components/CreateNFT.tsx:104-106 | the name gets an error exactly when it is all whitespace, and the error is "Name is required" |
| CreateNFT.OwnerError | app/components/CreateNFT.tsx:108-112 | "Owner address is required" exactly for a blank owner; "Invalid Ethereum address" exactly for a non-blank non-address; no error exactly for a non-blank address |
| CreateNFT.PriceError | app/components/CreateNFT.tsx:114-118 | "Price is required" exactly for a blank price; "Price must be a positive number" exactly for a non-blank price that is not a positive number; otherwise no error |
| CreateNFT.ImageError | app/components/CreateNFT.tsx:120-122 | the image gets "Image is required" exactly when `imageData` is empty |
| CreateNFT.ErrorsFor | app/components/CreateNFT.tsx:101-125 | no field error is recorded exactly when the name is not blank, the owner is a non-blank address, the price is a non-blank positive number and an image is present |
| CreateNFT.DescriptionNotValidated | app/components/CreateNFT.tsx:101-125 | changing the description never changes the recorded errors |
| CreateNFT.CheckUpload | app/components/CreateNFT.tsx:192-202 | a file is accepted exactly when it is at most 10 MiB and of type jpeg, png or gif; a too-large file is rejected for its size before its type is looked at |
| CreateNFT.FirstFailure | app/components/CreateNFT.tsx:147-166 | the create attempt fails at no step exactly when the price converts, the contract is bound, the call and the confirmation resolve, the stored list is readable and its `setItem` is not refused; a refused write, for example a record over the storage quota, is the last possible failure and comes only after the confirmation |
| CreateNFT.Toast | app/components/CreateNFT.tsx:134-180 | the success toast is shown exactly when an NFT was created |
| CreateNFT.Form.constructor | app/components/CreateNFT.tsx:34-45 | the form starts with empty fields, no errors, not loading, no wallet and no contract |
| CreateNFT.Form.BindContract | app/components/CreateNFT.tsx:75-99 | the contract becomes bound only when the wallet is ready and `getCode` returned something other than '0x' |
| CreateNFT.Form.ValidateForm | app/components/CreateNFT.tsx:101-126 | `errors` is replaced by the errors of the current fields, and the result is true exactly when none was recorded |
| CreateNFT.Form.ResetForm | app/components/CreateNFT.tsx:183-190 | every field and every error is cleared; the loading flag and bindings are untouched |
| CreateNFT.Form.HandleImageUpload | app/components/CreateNFT.tsx:192-216 | a rejected file changes nothing; an accepted one becomes `imageData` and clears only the image error |
| CreateNFT.Form.HandleCreateNFT | app/components/CreateNFT.tsx:134-181 | invalid form or no wallet: no call, no save, fields and `isLoading` untouched; a failed step: nothing saved, fields kept, `isLoading` false; success: exactly one record (hash, fields, time) appended to `'userNFTs'`, form cleared; `createNFT` is reached exactly for a valid form with a wallet, a convertible price and a bound contract; `'purchasedNFTs'` is never written |
| CreateNFT.Form.TryCreate | app/components/CreateNFT.tsx:145-180 | the `try`/`finally` block: the first throwing step decides the failure, and only a fully confirmed attempt with a readable list and an accepted write saves and resets; a refused write leaves the form filled after the NFT exists on chain; `isLoading` ends false |
| CreateNFT.Form.SaveNFTToLocalStorage | app/components/CreateNFT.tsx:128-132 | a readable list (a missing key reads as `[]`) gets the record appended at the end; an unreadable list or a refused `setItem` throws and the key is left as it was |
| MarketPlace.Listing | app/components/MarketPlace.tsx:120-131 | one view record per contract NFT, in order, with image, title, creator copied, price formatted in ether, `priceUSD` "0", `change` 0 and `metadataURI` the name |
| MarketPlace.ListedPriceIsExact | app/components/MarketPlace.tsx:125 | the `price` field of every listing record parses back to that NFT's wei price in the contract |
| MarketPlace.ErrorMessage | app/components/MarketPlace.tsx:170 | the message is the thrown error's message when that is non-empty, and exactly 'Failed to mint NFT. Please try again.' when it is empty; it is never empty |
| MarketPlace.MintValueIsContractPrice | app/components/MarketPlace.tsx:117-118 | the value attached to a mint, `parseEther(mintPrice)`, is exactly the wei price the contract reported |
| MarketPlace.Market.constructor | app/components/MarketPlace.tsx:77-84 | the page starts unbound, with no price, no account, no listing and no message |
| MarketPlace.Market.InitializeContract | app/components/MarketPlace.tsx:109-138 | with a ready wallet the contract is bound (without any code check); the price is stored when `mintPrice()` resolves; the listing is replaced only when both calls resolve |
| MarketPlace.Market.HandleMint | app/components/MarketPlace.tsx:140-174 | unbound contract or no address: refused, `message` set to the not-ready text and nothing saved; a mint call carries `parseEther(mintPrice)`; a record (token 0, card fields, `mintPrice`, connected owner) is saved only after confirmation and only if its write is accepted, while a refused write still sets `message` to the success text; each failure sets `message` to the thrown error's message; `loading` ends false |
| MarketPlace.Market.SaveNFTToStorage | app/components/MarketPlace.tsx:176-189 | `'purchasedNFTs'` becomes the keyed update of `Storage.SavePurchased` when the write is accepted and is left as it was when `setItem` is refused; the other keys are untouched |
| Robots.Lookup | app/components/Robots.tsx:32-37 | records are taken exactly for a non-empty address with an entry in a readable table, and they are exactly that owner's records |
| Robots.SavedRecordIsShownLast | app/components/Robots.tsx:35-36 | after a save for an owner, that owner's view is their previous records followed by the new record |
| Robots.SaveInvisibleToOthers | app/components/Robots.tsx:35-36 | a save for one owner never changes what another address is shown |
| Robots.Cards | app/components/Robots.tsx:47-90 | the placeholder card is shown exactly when the list is empty; otherwise one card per record, numbered index + 1 |
| Robots.MyRobots.constructor | app/components/Robots.tsx:22-23 | the page starts with no records and the address '' |
| Robots.MyRobots.LoadPurchased | app/components/Robots.tsx:25-41 | unreadable `'walletData'` throws and changes nothing; a stored address replaces `walletAddress`; the list becomes the records found for the address the effect closed over, and otherwise stays as it was |
| CrowdFunding.Page.constructor | app/components/CrowdFunding.tsx:29-33 | the page starts unbound with no campaigns |
| CrowdFunding.Page.InitializeContract | app/components/CrowdFunding.tsx:62-89 | nothing is bound or fetched without a ready wallet or when the code is '0x' or unreadable; otherwise the contract is bound and the campaigns are replaced when the fetch resolves |
| CrowdFunding.Progress | app/components/CrowdFunding.tsx:93 | the truncated quotient `q` with `q * goal <= total < (q + 1) * goal`; it is 0 exactly while less than the goal is raised |
| CrowdFunding.ProgressBarIsNotAPercentage | app/components/CrowdFunding.tsx:93-122 | as written, the bar is 0% wide one wei short of the goal and 1% wide at the goal, where the percentage is at least 50 and exactly 100 |
| CrowdFunding.ProgressPercent | app/components/CrowdFunding.tsx:122 | the percentage `p` raised, with `p * goal <= 100 * total < (p + 1) * goal`; it reaches 100 exactly when the goal is met |
| CrowdFunding.NowSeconds | app/components/CrowdFunding.tsx:95 | the floor of the millisecond clock divided by 1000 |
| CrowdFunding.DaysLeft | app/components/CrowdFunding.tsx:94-96 | the floor of the seconds to `endsAt` over 86400; it is negative exactly once `endsAt` has passed |
| CrowdFunding.Cards | app/components/CrowdFunding.tsx:92-148 | one card per campaign, in order, keyed by its id, with the patron count `contributors.length`, its days left and the bar width the code draws, the truncated quotient `Progress`; every goal must be positive, as a zero goal makes the card's division throw |
| CrowdFunding.IntendedCards | app/components/CrowdFunding.tsx:122 | the same cards with the bar width set to `ProgressPercent`, the percentage raised: only the bar width differs, and the bar is full exactly for a campaign that has met its goal |
| Scenarios.MintedNFTShowsInMyRobots | app/components/Robots.tsx:25-41 | a confirmed mint pays the contract price; the first run of the effect shows the placeholder, as it looks up the address it closed over, ''; the second run shows the record as card #1 exactly when the address in 'walletData' is the same string as the signer's address and the write was accepted, and the placeholder otherwise; the marketplace card is marked owned exactly when its creator is the signer (line 209 of MarketPlace.tsx), not because it was minted |
| Scenarios.CreatedNFTNeverShowsInMyRobots | app/components/CreateNFT.tsx:128-131 | a successful creation still leaves "My Robots" showing the placeholder, because the created record goes to `'userNFTs'` and that page reads only `'purchasedNFTs'` |

## Left out

- Wallet connection: each component's `initializeProvider`, `app/wallet/page.tsx`, `app/hooks/useMetaMask.js` and `context/walletConnect.tsx` are not part of this model. This includes the pending-request error `-32002`. Their result is the `walletReady` flag and the `account` field of the page classes.
- `ethers.isAddress` (an EIP-55 checksum over Keccak-256) and `Number(price)` (float parsing) are predicates given to the validation.
- `parseEther(price)` of the user's typed price in the create flow is a parameter (`CreateEnv.priceWei`, None when it throws). The digit-level `Ether.ParseEther` is used only for the marketplace's own rendered price.
- Ether.ParseEther: refuses every amount with more than 18 fractional digits. The model does not decide whether ethers accepts excess trailing zeros. The round trip never produces such an amount.
- Ether.FormatEther: gives the digits of the rendered string, not its characters.
- JSON and `localStorage` mechanics: a key holds a missing, unparsable or parsed value. Whether a `setItem` succeeds is an input (`SetItem`); the storage quota itself and the sizes of values are not modelled. Parsed JSON of the wrong shape (a non-array in `'userNFTs'`, `null`, a non-array entry) is not distinguished from a well-formed value.
- `FileReader`'s base64 encoding is the `dataUrl` parameter. Its asynchronous completion is taken as immediate, and a read error after the guard is not modelled.
- React timing: an effect is one method call. Its re-run after a dependency changes is another call, as in `Scenarios.MintedNFTShowsInMyRobots`. Disabling the create button while `isLoading`, double submissions and several tabs writing the store are not modelled.
- `Number(...)` conversion of bigints for `progress` and `endsAt` is exact here. It loses precision above 2^53.
- CreateNFT.Form.HandleCreateNFT: the arguments of the `createNFT` call (name and wei price) are not recorded in the outcome.
- MarketPlace.Market.HandleMint: the intermediate messages ("Creating NFT...", "Minting NFT...", "Waiting for mint confirmation...") are set in sequence. The contract states only the final message. The arguments `0` and the address of `mintNFT` are not recorded.
- Toasts and console output: only the create form's final toast text is modelled, by `CreateNFT.Toast`.
- `app/utils/multerMiddleware.ts` is a thin wrapper over the multer library. It also accepts webp, unlike the client guard. It is not part of this model.
- Presentational files and markup are not part of this model. This covers the pages, the navbar, `FileUpload`, `Roadmap`, the styling configuration and all JSX apart from the card lists.

## Notes on the code

- Written vs. read keys: created NFTs are saved as a flat array under `'userNFTs'`, while "My Robots" reads only the owner-keyed `'purchasedNFTs'`. A design with both blobs keyed by owner would show created NFTs; this code does not. `Scenarios.CreatedNFTNeverShowsInMyRobots` states this outcome.
- Corrupt stored data is not read as an empty store. On save the marketplace writes nothing, on read "My Robots" keeps its current list, and the create form's save throws after the transaction was confirmed. That last case leaves the form filled and shows the failure toast.
- A refused `setItem` has different effects on the two pages. Browsers cap a site's storage, often at a few million characters, while a created record holds the image as the data URL of a file up to 10 MiB (about 14 M characters). In the create form the refused write throws inside the `try`, after the NFT exists on chain. The page then shows "Failed to create NFT" and keeps the form filled. On the marketplace the refusal is caught inside `saveNFTToStorage`, so nothing is saved. The page shows nothing in either case, and only "My Robots" differs.
- The marketplace sets `message` and `loading` (lines 142-172 of `MarketPlace.tsx`) but never renders them. Neither the page's markup (lines 193-214) nor `NFTCard` reads them. No mint outcome, success or failure, is visible on the marketplace page itself. The model keeps both as state so that the contracts can say what each outcome sets.
- Only the create form and the crowdfunding page check for deployed code. The marketplace binds the contract without a check.
- The listing record's `price` (line 125 of `MarketPlace.tsx`) is computed but never displayed or parsed. Each card shows the page-level `mintPrice` (lines 54 and 205), and `handleMint` parses that same `mintPrice` (line 150).
- "My Robots" reads its address from `'walletData'`, which the wallet page writes from `eth_requestAccounts` (`app/wallet/page.tsx`). The marketplace saves under `signer.getAddress()`. The lookup matches the exact string, so any difference between the two, letter case included, leaves the placeholder.
- A listing filtered by what the owner already holds is not present. A card is only marked "owned" when its creator is the connected address. The comparison on `app/components/MarketPlace.tsx:209` repeats one operand twice.
- "My Robots" looks up the address its effect closed over. The first run after mount therefore always uses '' and loads nothing.

## Findings

| source | as written | input that shows it | evidently intended | confidence | as-written member | corrected member |
|---|---|---|---|---|---|---|
| app/components/CrowdFunding.tsx:93 | `progress = Number(totalContributions / goal)` is used as the bar width `${progress}%` (line 122) | goal = 10^18 wei: 10^18 − 1 raised gives width 0%, exactly the goal gives 1% | the percentage raised, `100 * totalContributions / goal` | not executed; high (a quotient below 2 as a CSS percentage) | CrowdFunding.ProgressBarIsNotAPercentage | CrowdFunding.ProgressPercent |

`CrowdFunding.Progress` models the quotient as written, and `CrowdFunding.Cards`, the card list as the code draws it, uses it for the bar width. `CrowdFunding.IntendedCards` is the corrected card list, drawn with `ProgressPercent`.
