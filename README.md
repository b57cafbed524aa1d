# solgem core in Dafny

solgem is a Solana NFT launchpad. An operator sets up a candy machine (the
on-chain minting program instance) that sells a collection and collects a
service fee for a treasury wallet. Its metadata goes to permanent storage on
Arweave. This project models the logic layer under `src/lib` and proves what
it promises. The React pages are not part of the model.

- `arweave.dfy` (module `Arweave`, from `src/lib/storage/arweave.ts`): the
  NFT metadata record; the metadata validator, a method that appends messages
  one check at a time; the single-upload stub; the batch aggregation loop
  over settled uploads; the 43-character mock hash loop; and the sample
  metadata builder.
- `candy_machine.dfy` (module `CandyMachine`, from
  `src/lib/solana/candyMachine.ts`): the configuration validator, again a
  method that appends messages; the machine data built from a configuration,
  including JavaScript's `||` defaulting; and the placeholder statistics.
- `mint.dfy` (module `Mint`, from `src/lib/solana/mint.ts`): the mint request
  handler as a pure function returning a tagged success or failure record;
  the wallet check; and the cost estimate.
- `check_order.dfy` (module `CheckOrder`): what an ordered error list is.
  Every message belongs to a check, each appears at most once, and they come
  in check order. An ordered list is fixed by which messages it holds.
- `number_text.dfy` (module `NumberText`): the decimal text JavaScript
  produces for an integer below 10^21 in magnitude. It is used in ``${index}`` and in
  `'mock_signature_' + Date.now()`. The decimal text reads back to its value
  and is injective.
- `wrappers.dfy` (module `Wrappers`): `Option`, for fields JavaScript may
  leave `undefined`.

Each validator method is proved against a specification function
(`MetadataErrors`, `ConfigErrors`), and those functions have their own
lemmas. Each message appears exactly when its check fails. The list is in
check order and has at most five entries. The list is empty exactly when the
input passes. Any ordered list with the same messages is the same list.

Values the source takes from the environment are parameters:
- `Math.random()` draws are rolls in `[0, 1)`.
- The text of `Math.random().toString(36)` is a string.
- `Date.now()` and `new Date()` are integer millisecond timestamps.
- Public keys are their optional base-58 text.
- Dates in the configuration are optional integer timestamps.
- Amounts in SOL are `real`.

## Model

| member | source | states |
|---|---|---|
| Arweave.TrimStartBlank | src/lib/storage/arweave.ts:125 | Trimming the start leaves nothing exactly when the text is all JavaScript whitespace; otherwise what is left starts with a non-whitespace character |
| Arweave.TrimEndBlank | src/lib/storage/arweave.ts:125 | Trimming the end leaves nothing exactly when the text is all JavaScript whitespace |
| Arweave.TrimEmptyIffBlank | src/lib/storage/arweave.ts:125-131 | `trim()` yields `''` exactly when the text is empty or only whitespace and line terminators |
| Arweave.IsMissingText | src/lib/storage/arweave.ts:125-131 | The test `!s \|\| s.trim() === ''` holds exactly when the text is blank |
| Arweave.FailedChecksMembers | src/lib/storage/arweave.ts:125-143 | Each of the five metadata messages is in the list exactly when its own check fails |
| Arweave.FailedChecksInOrder | src/lib/storage/arweave.ts:122-143 | Messages come in check order (name, image, files, category, creators), each at most once, so there are at most five |
| Arweave.MetadataErrorsDetermined | src/lib/storage/arweave.ts:122-143 | A list in check order holding exactly the failed checks' messages is the validator's list |
| Arweave.ValidateMetadata | src/lib/storage/arweave.ts:122-148 | The method's list equals the specification list. `valid` is true exactly when the list is empty, and exactly when all five checks pass. A blank name or image, missing files or category, and missing or empty creators each add their own message and nothing else does. The list is in check order with at most five messages |
| Arweave.UploadMetadata | src/lib/storage/arweave.ts:34-44 | The upload stub succeeds with a non-empty URI: the Arweave gateway followed by the hash |
| Arweave.SuccessCountAll | src/lib/storage/arweave.ts:65-76 | The success count equals the batch size exactly when every upload succeeded |
| Arweave.SuccessCountNone | src/lib/storage/arweave.ts:65-76 | The success count is zero exactly when no upload succeeded |
| Arweave.SuccessCountSplit | src/lib/storage/arweave.ts:67-74 | Counting two parts of a batch separately adds up to the count of the whole |
| Arweave.UploadedBatchSucceeds | src/lib/storage/arweave.ts:41-44 | A batch whose items all went through the upload stub counts every item as a success |
| Arweave.AggregateBatch | src/lib/storage/arweave.ts:64-76 | One URI per input in order. Item i gets its upload's URI when it succeeded and `''` otherwise. `successCount` is the number of successes and at most the input length. When successful URIs are non-empty, `''` marks exactly the failed items |
| Arweave.AlphabetIndex | src/lib/storage/arweave.ts:158 | `Math.floor(roll * 64)` is a valid alphabet position within one of `roll * 64` |
| Arweave.AlphabetIndexReaches | src/lib/storage/arweave.ts:155-158 | Every alphabet character is drawn by some roll |
| Arweave.GenerateMockHash | src/lib/storage/arweave.ts:154-161 | The hash has 43 characters, all from the 64-character URL-safe alphabet, and character i is the one roll i selects |
| Arweave.SampleMetadata | src/lib/storage/arweave.ts:82-117 | Name `"<collection> #<index>"`. Files hold the image URI as `image/png`, category is image, and there is one creator with share 100. Collection name and family are both the collection name. Rarity is one of five names and level is in 1..100 |
| Arweave.SampleMetadataIsValid | src/lib/storage/arweave.ts:82-143 | Sample metadata passes every check of the metadata validator |
| Arweave.SampleNamesDistinct | src/lib/storage/arweave.ts:84 | Different indices in one collection give different sample names |
| CandyMachine.FailedChecksMembers | src/lib/solana/candyMachine.ts:80-98 | Each of the five configuration messages is in the list exactly when its own check fails |
| CandyMachine.FailedChecksInOrder | src/lib/solana/candyMachine.ts:77-100 | Messages come in check order (mint, treasury, fee, items, dates), each at most once, so there are at most five |
| CandyMachine.ConfigErrorsMeaning | src/lib/solana/candyMachine.ts:77-100 | The list is empty exactly for an acceptable configuration. A missing mint or treasury, a fee `<= 0`, a present negative supply, and present dates with start `>=` end each add their own message. The list is in check order |
| CandyMachine.ConfigErrorsDetermined | src/lib/solana/candyMachine.ts:77-100 | A list in check order holding exactly the failed checks' messages is the validator's list |
| CandyMachine.ValidateCandyMachineConfig | src/lib/solana/candyMachine.ts:77-101 | The method's list equals the specification list, with every property of `ConfigErrorsMeaning` stated on the returned list |
| CandyMachine.CreateCandyMachine | src/lib/solana/candyMachine.ts:15-52 | Data is built exactly when the treasury wallet is present; without it, reading the key throws. Supply is the configured one when truthy and 1000 otherwise, and never 0. Royalties are 500 basis points. There is one creator, the treasury wallet, and shares total 100 |
| CandyMachine.AcceptedConfigBuilds | src/lib/solana/candyMachine.ts:21 | A configuration the validator accepts builds a machine with a positive supply |
| CandyMachine.ZeroSupplyDefaults | src/lib/solana/candyMachine.ts:21 | A supply of 0 is falsy: the validator does not flag it and the builder replaces it with 1000 |
| CandyMachine.GetCandyMachineStats | src/lib/solana/candyMachine.ts:57-72 | The statistics echo the id and report 1000 available, 0 redeemed, and the clock reading as go-live date |
| NumberText.DecimalRoundTrip | src/lib/solana/mint.ts:44 | The decimal text of a natural number reads back to that number |
| NumberText.IntToDecimalInjective | src/lib/storage/arweave.ts:84 | Different integers have different decimal texts |
| Mint.Substr | src/lib/solana/mint.ts:45 | `substr(start, length)` gives the characters from start on, at most length of them, and as many as remain when fewer |
| Mint.MintNft | src/lib/solana/mint.ts:19-54 | Every path returns a well-shaped record. Success holds exactly when all three identifiers are non-empty. A failure carries `'Missing required parameters'` and no identifiers. A success carries `'mock_signature_'` plus the clock text and `'mock_asset_'` plus `substr(2, 9)` of the random text |
| Mint.MintIgnoresServiceFee | src/lib/solana/mint.ts:24 | Changing the service fee never changes the result |
| Mint.SignatureEncodesClock | src/lib/solana/mint.ts:44 | A successful signature is the prefix followed by decimal digits that read back to the clock reading |
| Mint.SignaturesDifferAcrossClock | src/lib/solana/mint.ts:44 | Mints at different milliseconds get different signatures. Nothing is claimed for mints within one millisecond |
| Mint.AssetIdTakesFractionDigits | src/lib/solana/mint.ts:45 | For random text `"0." + digits`, the asset id is the prefix and the first nine fraction digits, or all of them when fewer |
| Mint.ValidateMintingWallet | src/lib/solana/mint.ts:59-73 | Every wallet is accepted, whatever the amount |
| Mint.EstimatedMintCost | src/lib/solana/mint.ts:78-91 | The service fee passes through, the network fee is 0.00225, and the total is their sum |
| Mint.MintScenarios | src/lib/solana/mint.ts:24-46 | A request with an empty candy machine id fails with `'Missing required parameters'`; one with all three identifiers succeeds; a fee of 0.1 is estimated at a total of 0.10225 in exact real arithmetic |
| Mint.EstimatedCostOrder | src/lib/solana/mint.ts:83-90 | In exact real arithmetic: the fee is recovered from the total, the total exceeds the fee, and a larger fee gives a larger total (both directions) |

## Left out

- Amounts are exact reals. IEEE-754 rounding in `serviceFeeAmount + networkFee` and similar sums is not modelled. NaN and infinities are not modelled.
- Mint.MintScenarios: its cost clause holds in exact real arithmetic only. In IEEE-754 binary64, `0.1 + 0.00225` at src/lib/solana/mint.ts:84 gives 0.10225000000000001, not 0.10225.
- Mint.EstimatedCostOrder: its three clauses hold in exact real arithmetic only. In binary64 the fee is not always recovered from the total (fee 1e-20), the total need not exceed the fee (fee 1e17), and a larger fee can give an equal total (fees 0 and 1e-20).
- `solToLamports` and `lamportsToSol` (src/lib/solana/mint.ts:96-105) are not modelled: `Math.floor` over a floating-point product does not match real arithmetic.
- `Promise.allSettled` (src/lib/storage/arweave.ts:60-62) is modelled as a given sequence of settled outcomes folded in order; the concurrency is not modelled.
- All `console.log` and `console.error` calls are left out.
- Arweave.UploadMetadata: its `catch` branch (src/lib/storage/arweave.ts:45-51) is not modelled; nothing in the `try` block can throw once the hash is a parameter.
- Mint.MintNft: the `'Unknown error occurred'` branch (src/lib/solana/mint.ts:51) is not modelled; the only error thrown is an `Error`.
- Mint.ValidateMintingWallet: its `catch` branch returning false (src/lib/solana/mint.ts:69-71) is not modelled; logging is the only statement that could throw.
- Arweave.ValidateMetadata: `properties` is always present, as its type requires. With `properties` absent, src/lib/storage/arweave.ts:137 would throw after line 133 had reported missing files; that crash is not modelled.
- Arweave.SampleMetadata: the index is an integer printed in plain decimal. A fractional or non-finite index would print differently and is not modelled. An index of magnitude 10^21 or more prints in exponent form in JavaScript (`1e+21`), so for such indices the name and image URI stated here differ from the program's; those indices are not modelled.
- CandyMachine.CreateCandyMachine: `itemsAvailable` is an integer in the model, while its declared type is `number` (src/lib/solana/candyMachine.ts:7); fractional supplies are not modelled, here or in the validator.
- Arweave.SampleMetadata: the description is built but no property is stated about it.
- CandyMachine.CreateCandyMachine: `hiddenSettings: null` is omitted from the data. The Metaplex/Umi client (src/lib/solana/umi.ts) is not part of this model.
- The metadata category is the enumeration image/video/audio. A present but empty category string, which JavaScript treats as falsy, cannot arise.
- Identifiers are not claimed to be unique. Mock hashes, asset ids and signatures depend on the random and clock parameters, and the code does not make them unique.
- UI pages and components, src/lib/utils/constants.ts and src/types/nft.ts are not part of this model; the constants they hold are inlined in the modelled files.
- `mintNFT` is documented as minting with automatic service fee collection (src/lib/solana/mint.ts:15-18), yet it never reads or checks the fee (src/lib/solana/mint.ts:24), so a zero or negative fee is accepted. The model follows the code, as `Mint.MintIgnoresServiceFee` states.
