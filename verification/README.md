# BatikChain in Dafny

BatikChain registers hand-made batik pieces on Ethereum so that buyers can
check where a piece came from. The `BatikAuthenticity` contract keeps one
record per product, keyed by a numeric id. Only the contract's owner may add
a record or mark one as verified. A Next.js frontend does the rest:

- it reads the registry through a JSON-RPC provider;
- it lists and filters products;
- it validates the two product forms before it sends `addProduct` or `registerProduct`;
- it maps failures to user-facing messages;
- it keeps a small record of the MetaMask connection.

This project models that logic as pure functions over immutable datatypes,
and proves what each piece promises.

| module | file | models |
|---|---|---|
| `Outcomes` | outcomes.dfy | `Option`, `Result`, and a thrown JavaScript value (`Error` with a message, or anything else) |
| `Text` | text.dfy | the string operations the frontend uses: prefix, substring, ASCII `toLowerCase`, ASCII `trim` |
| `Registry` | registry.dfy | the contract as its test suite pins it down: guards, revert reasons, reads, events, and runs of many transactions |
| `Rpc` | rpc.dfy | the contract seen through a provider: each call returns the registry's answer or throws (a revert throws an `Error` whose message is the provider's text around the reason; a transport fault throws an arbitrary value) |
| `Seqs` | seqs.dfy | order-preserving selection from a sequence |
| `ContractClient` | contract_client.dfy | the `useContract` hook's readers and enumerations, with their no-contract and error fallbacks |
| `VerifyPage` | verify_page.dfy | the verify page: loading the unverified products, reloading after a verification, and the view precedence |
| `Catalog` | catalog.dfy | the product list's three filters and its distinct-technique list |
| `Media` | media.dfy | the MIME-prefix and size guards for images (5 MiB) and videos (50 MiB) |
| `ProductForm` | product_form.dfy | `AddProductForm`: id parsing, validation, file pickers, the submit pre-checks, the `addProduct` arguments and error messages |
| `ProductModal` | product_modal.dfy | `AddProductModal`: validation, the image picker, the `registerProduct` arguments and error messages |
| `VerificationCard` | verification_card.dfy | the verify button: signer guard, call argument, success path, error messages, and the confirm dialog's backdrop |
| `ProductDetail` | product_detail.dfy | `formatAddress` and the status, media, coordinates and verifier parts of the detail view |
| `Ipfs` | ipfs.dfy | `getIPFSUrl`, and the guards of `uploadImage` |
| `Wallet` | wallet.dfy | the `useWallet` state record and its transitions, plus the hexadecimal chain id sent to `wallet_switchEthereumChain` |

Modelling conventions:

- Asynchronous effects become parameters: what the chain answers, whether
  a signer or `window.ethereum` exists, what an upload returns, what an
  exception carries.
- A revert is an `Err` carrying a `Revert` value. `Registry.Reason` maps
  each `Revert` to its reason string. A provider reports the revert with its
  own text before and after the reason (an `Rpc.Wrapping`). The message
  handlers are therefore stated for any message that contains the reason.
- A React state update is a function from the old state record to the new one.
- The methods `EnumerateIds` and `LoadUnverified` run the source's loops
  with loop invariants. The per-id read loops are recursive functions with
  lemmas about them.
- They also return the RPC calls issued, in order, so "no call is made" can be stated.

## Model

| member | source | states |
|---|---|---|
| Registry.ReasonInjective | test/BatikAuthenticity.test.js:112-287 | the guards revert with pairwise distinct reasons, so a caller can tell which guard fired from the reason alone |
| Registry.Deploy | test/BatikAuthenticity.test.js:19-26 | a fresh registry is owned by the deployer, has total 0, satisfies the representation invariant, and knows no product id |
| Registry.AddProduct | test/BatikAuthenticity.test.js:48-157 | a non-owner gets "Ownable: caller is not the owner", a known id gets "Product ID already exists", an empty name gets "Product name cannot be empty"; success holds exactly when none of these apply, and then the total grows by one, the id is appended, the owner is unchanged and `ProductAdded(id, name, artisan, caller)` is emitted |
| Registry.VerifyProduct | test/BatikAuthenticity.test.js:270-288 | a non-owner is rejected with the Ownable reason, an unknown id with "Product does not exist"; otherwise the record becomes verified, ids and owner are unchanged and `ProductVerified(id)` is emitted |
| Registry.GetProduct | test/BatikAuthenticity.test.js:199-224 | succeeds exactly for stored ids and otherwise reverts with "Product does not exist" |
| Registry.GetProductBasicInfo | test/BatikAuthenticity.test.js:209-218 | succeeds exactly when `getProduct` does, and returns the projection (id, name, artisan, village, technique, verified flag) of the stored record |
| Registry.IsProductVerified | test/BatikAuthenticity.test.js:226-228 | succeeds exactly when `getProduct` does, and returns the stored record's verified flag |
| Registry.GetProductIdByIndex | frontend/src/hooks/useContract.ts:119-127 | succeeds exactly for indices below the total, and then returns the id added at that position |
| Registry.AddPreservesValid | test/BatikAuthenticity.test.js:48-71 | a successful add keeps the id list duplicate-free and in one-to-one correspondence with the stored records |
| Registry.VerifyPreservesValid | test/BatikAuthenticity.test.js:270-276 | a successful verification keeps the representation invariant |
| Registry.AddThenGet | test/BatikAuthenticity.test.js:199-218 | after an add, `getProduct` returns the supplied id, name, artisan and village, unverified, and `isProductVerified` is false |
| Registry.AddKeepsOthers | test/BatikAuthenticity.test.js:48-71 | an add changes no other id's `getProduct` answer |
| Registry.AddExtendsIndex | test/BatikAuthenticity.test.js:48-71 | after an add, the old indices keep their ids and the new id sits at the old total |
| Registry.VerifyThenIsVerified | test/BatikAuthenticity.test.js:270-276 | after a verification, `isProductVerified` is true and only the verified flag and the verifier of that record changed |
| Registry.VerifyKeepsOthers | test/BatikAuthenticity.test.js:270-276 | a verification changes no other id's `getProduct` answer |
| Registry.EnumerationComplete | frontend/src/hooks/useContract.ts:119-127 | in a valid registry an id is stored exactly when some index below the total yields it |
| Registry.RunPreservesValid | test/BatikAuthenticity.test.js:48-113 | any sequence of adds and verifications, by anyone, keeps the invariant and the owner; the total grows by exactly the number of adds that succeeded |
| Registry.RunMonotonic | test/BatikAuthenticity.test.js:73-113 | no sequence of transactions removes a record or changes its data; only the verified flag and the verifier change. Verification is never undone, only the owner ever becomes a verifier, and in a valid registry a verified record keeps its verifier. So a duplicate add can never overwrite a stored product |
| Rpc.RevertError | frontend/src/components/VerificationCard.tsx:66-71 | whatever text the provider puts around it, the thrown message contains the revert reason, which is what the `includes` tests look for |
| Rpc.CallTotal | frontend/src/hooks/useContract.ts:99 | an unfaulted call returns the number of stored ids and never throws; the call throws exactly when it is faulted, and then throws the fault's value |
| Rpc.CallIdByIndex | frontend/src/hooks/useContract.ts:123 | an unfaulted call succeeds exactly when the index is below the number of stored ids, and then returns the id at that index; otherwise it throws an `Error` whose message contains "Index out of bounds". A faulted call throws the fault's value |
| Rpc.CallProduct | frontend/src/hooks/useContract.ts:33 | an unfaulted call succeeds exactly when the id is stored, and then returns the stored record; otherwise it throws an `Error` whose message contains "Product does not exist". A faulted call throws the fault's value |
| Rpc.CallBasicInfo | frontend/src/hooks/useContract.ts:72 | an unfaulted call succeeds exactly when the id is stored, and then returns the six basic fields of the stored record; otherwise it throws an `Error` whose message contains "Product does not exist". A faulted call throws the fault's value |
| Rpc.CallIsVerified | frontend/src/hooks/useContract.ts:204 | an unfaulted call succeeds exactly when the id is stored, and then returns that record's verification flag; otherwise it throws an `Error` whose message contains "Product does not exist". A faulted call throws the fault's value |
| Rpc.Throws | frontend/src/hooks/useContract.ts:54-56 | a call listed as faulted throws exactly the fault's value; any other call throws only a wrapped revert, and `getTotalProducts` then never throws |
| Rpc.RecordsOf | frontend/src/hooks/useContract.ts:146-156 | when every id is stored, the records come back one per id, in id order |
| Rpc.PendingOf | frontend/src/app/verify/page.tsx:54-67 | the pending list holds only unverified records of the registry, and no more than there are ids |
| Rpc.PendingOfSnoc | frontend/src/app/verify/page.tsx:57-65 | one more loop step appends the next record exactly when it is unverified |
| Rpc.PendingOfComplete | frontend/src/app/verify/page.tsx:54-67 | with every id stored, a record is pending exactly when it is unverified and stored under some listed id |
| ContractClient.Attach | frontend/src/hooks/useContract.ts:12-21 | a contract instance is attached when a provider and a non-empty address are present; otherwise the previous instance stays |
| ContractClient.GetProduct | frontend/src/hooks/useContract.ts:23-60 | without a contract: null, "Contract belum terhubung", no call; with one: exactly one `getProduct` call, loading ends false, and the record is returned unchanged with the error cleared, or null with the error's message or "Gagal mengambil data produk" |
| ContractClient.GetProductBasicInfo | frontend/src/hooks/useContract.ts:62-87 | the same contract for `getProductBasicInfo`, with its own fallback text |
| ContractClient.GetTotalProducts | frontend/src/hooks/useContract.ts:89-107 | without a contract: 0, the not-connected error, no call; with one: one call, loading false, the registry's total or 0 with the error message |
| ContractClient.IsProductVerified | frontend/src/hooks/useContract.ts:194-212 | without a contract: false, the not-connected error, no call; with one: one call, loading false, the stored flag or false with the error message |
| ContractClient.GetAllProductIds | frontend/src/hooks/useContract.ts:109-134 | without a contract: [], the not-connected error, no call; with one, exactly the enumeration's outcome |
| ContractClient.EnumerateIds | frontend/src/hooks/useContract.ts:118-133 | the calls are `getTotalProducts` then `getProductIdByIndex(0 .. n-1)` in order, cut off after the first faulted one. The error is clear exactly when every call is answered, and the result is then the registry's id list. Otherwise the result is [] and the error is the first fault's message or "Gagal mengambil daftar ID produk" |
| ContractClient.FirstFault | frontend/src/hooks/useContract.ts:118-130 | no value is reported exactly when every call is answered |
| ContractClient.FirstFaultAt | frontend/src/hooks/useContract.ts:122-129 | the value reported is the one thrown by the first faulted call, the one every earlier call was answered before |
| ContractClient.FetchProducts | frontend/src/hooks/useContract.ts:149-154 | the loop makes one call per id and keeps at most one record per id |
| ContractClient.FetchProductsTrace | frontend/src/hooks/useContract.ts:149-150 | the calls are `getProduct(id)` for each id in list order, and the hook ends as the last read left it |
| ContractClient.FetchProductsAnswered | frontend/src/hooks/useContract.ts:149-154 | when no read faults, the loop returns the records of the ids, in id order |
| ContractClient.FetchedProducts | frontend/src/hooks/useContract.ts:149-154 | whatever calls fault, the kept records are an in-order subsequence of the stored records. A record is kept exactly when a listed id stores it and that id's read is answered |
| ContractClient.GetAllProducts | frontend/src/hooks/useContract.ts:136-163 | without a contract: [], the not-connected error, no call. A failed enumeration gives [] with the enumeration's error. After a complete one, the result is the in-order subsequence of stored records whose reads were answered, and the error is that of the last read, or none for an empty registry. On a healthy chain with a valid registry: every stored record in index order, with no error. Never a record the registry does not hold |
| ContractClient.FetchBasicInfos | frontend/src/hooks/useContract.ts:178-183 | the loop makes one call per id and keeps at most one projection per id |
| ContractClient.FetchBasicInfosTrace | frontend/src/hooks/useContract.ts:178-179 | the calls are `getProductBasicInfo(id)` for each id in list order, and the hook ends as the last read left it |
| ContractClient.FetchBasicInfosAnswered | frontend/src/hooks/useContract.ts:178-183 | when no read faults, the loop returns the projections of the ids' records, in id order |
| ContractClient.BasicsOf | frontend/src/hooks/useContract.ts:178-183 | the basic infos of a list of ids are the six-field projections of its records, one per record and in the same order |
| ContractClient.FetchedBasicInfos | frontend/src/hooks/useContract.ts:178-183 | whatever calls fault, the kept projections are an in-order subsequence of those of the stored records. A projection is kept exactly when a listed id stores its record and that id's read is answered |
| ContractClient.GetAllProductsBasicInfo | frontend/src/hooks/useContract.ts:165-192 | without a contract: [], the not-connected error, no call. A failed enumeration gives [] with its error. A complete one gives the in-order subsequence of projections whose reads were answered, with the last read's error, or none for an empty registry. On a healthy chain with a valid registry: the basic info of every stored record in index order |
| VerifyPage.LoadUnverified | frontend/src/app/verify/page.tsx:38-79 | no provider: nothing changes and no call is made; otherwise loading ends false, and on a healthy chain the list is exactly the unverified records at indices 0 .. total-1 in index order; on failure the error is the message or "Failed to load products" |
| VerifyPage.OnWalletChange | frontend/src/app/verify/page.tsx:81-85 | the list loads only when connected, on the right network, with a provider |
| VerifyPage.HandleVerified | frontend/src/app/verify/page.tsx:87-90 | without a provider nothing changes and no call is made; otherwise a successful verification reloads the list from the chain, and on a healthy chain with a valid registry the list is exactly the pending records |
| VerifyPage.VerifiedLeavesPending | frontend/src/app/verify/page.tsx:54-67 | once a verification of a product has gone through, no record with its id is pending, so the reloaded list no longer shows it |
| VerifyPage.CountLabel | frontend/src/app/verify/page.tsx:230 | the noun is "Product" exactly when one product is pending, and "Products" otherwise |
| VerifyPage.Render | frontend/src/app/verify/page.tsx:158-256 | the view is the connect prompt when disconnected or on the wrong network, else the spinner while loading, else the error panel with the message, else "All Products Verified!" for an empty list, else the grid with the count |
| VerifyPage.LoadedView | frontend/src/app/verify/page.tsx:204-256 | a list loaded from a valid registry shows "All Products Verified!" exactly when every stored record is verified, and otherwise the grid with the number of pending records |
| VerifyPage.InitialView | frontend/src/app/verify/page.tsx:34-36 | the page as mounted (loading) shows the spinner when connected on the right network and the connect prompt otherwise, never "All Products Verified!" |
| Text.ToLower | frontend/src/components/ProductList.tsx:42-44 | lower-casing keeps the length and maps each ASCII capital to its small letter, leaving every other character alone |
| Text.TrimEmptyIff | frontend/src/components/AddProductForm.tsx:144-146 | `!s.trim()` holds exactly when every character of `s` is white space |
| Catalog.FilterProducts | frontend/src/components/ProductList.tsx:41-54 | the result is an order-preserving subsequence of the products, and a product is in it exactly when the search, status and technique predicates all hold |
| Catalog.FilterProductsCounts | frontend/src/components/ProductList.tsx:41-54 | `Array.filter` keeps duplicates: a product the filters keep appears in the result as often as in the catalogue, and any other product not at all |
| Catalog.NoFilterKeepsAll | frontend/src/components/ProductList.tsx:42-51 | an empty term, status "all" and technique "all" keep the whole list, in order |
| Catalog.StatusFilterExact | frontend/src/components/ProductList.tsx:46-48 | "verified" keeps exactly the verified products and "unverified" exactly the others |
| Catalog.ShownAtMostTotal | frontend/src/components/ProductList.tsx:97 | in "Menampilkan n dari m produk" the shown count never exceeds the total, and the two are equal exactly when every product passes the filters |
| Catalog.Distinct | frontend/src/components/ProductList.tsx:57 | `Array.from(new Set(xs))` has no duplicates and the same members as `xs` |
| Catalog.DistinctFirstOccurrenceOrder | frontend/src/components/ProductList.tsx:57 | the distinct values come in the order of their first occurrences |
| Catalog.UniqueTechniques | frontend/src/components/ProductList.tsx:57 | the technique list has no duplicates and holds exactly the techniques some product has |
| Catalog.UniqueTechniquesOrder | frontend/src/components/ProductList.tsx:57 | the technique list follows first-occurrence order |
| Media.CheckFile | frontend/src/components/AddProductForm.tsx:75-122 | a file is accepted exactly when its type has the prefix and its size is within the limit; the type is judged before the size |
| Media.Limits | frontend/src/components/AddProductForm.tsx:78-84 | the type is checked before the size, so a file of the wrong kind is refused as the wrong type whatever its size |
| Media.LimitsForEveryType | frontend/src/components/AddProductForm.tsx:80-84 | for every image type, exactly 5 MiB passes and one byte more is too large; for every video type the same at 50 MiB |
| Media.PickersDisjoint | frontend/src/components/AddProductForm.tsx:80-84 | no file is of the right kind for both pickers: an image is the wrong type for the video picker, and a video for the image pickers |
| Media.AcceptedSmaller | frontend/src/components/AddProductForm.tsx:80-84 | an accepted file stays accepted at any smaller size |
| ProductForm.ParseId | frontend/src/components/AddProductForm.tsx:141 | an id parses exactly when its trimmed text is non-empty and all digits |
| ProductForm.ParseIdExamples | frontend/src/components/AddProductForm.tsx:141-143 | "12" is id 12, "0" parses but is refused as not positive, "1a" does not parse |
| ProductForm.DigitsValueZero | frontend/src/components/AddProductForm.tsx:141 | a digit string's value is zero exactly when every digit is '0' |
| ProductForm.ParseIdPositive | frontend/src/components/AddProductForm.tsx:141-143 | a parsed id passes the positivity test exactly when some digit of its trimmed text is not '0' |
| ProductForm.Validate | frontend/src/components/AddProductForm.tsx:138-156 | a field has an error exactly when its rule fails (the video never does), and every recorded message is that field's non-empty text |
| ProductForm.ValidateTextFields | frontend/src/components/AddProductForm.tsx:144-146 | product name, artisan name and village err exactly when they are all white space |
| ProductForm.ValidateOtherFields | frontend/src/components/AddProductForm.tsx:141-152 | the id errs when blank, non-numeric or not positive; technique when empty without trimming; description when shorter than 10 after trimming; each image when none is chosen; the video never |
| ProductForm.FieldsOkMeans | frontend/src/components/AddProductForm.tsx:141-152 | a form that passes has a positive id, non-blank name, artisan and village, a technique, a description of at least 10 characters and both images |
| ProductForm.FieldsOkNoErrors | frontend/src/components/AddProductForm.tsx:154-155 | a form that passes every rule records no error |
| ProductForm.ValidateForm | frontend/src/components/AddProductForm.tsx:138-156 | only the errors change; validation succeeds exactly when the error map is empty, and exactly when every rule passes |
| ProductForm.HandleImageChange | frontend/src/components/AddProductForm.tsx:75-100 | no file changes nothing; a wrong type sets the slot's error to "Please select a valid image file" and an oversized file to "Image size must be less than 5MB", keeping the prior selection; an accepted file replaces the selection and clears the slot's error; other slots and other error keys stay |
| ProductForm.HandleVideoChange | frontend/src/components/AddProductForm.tsx:102-122 | the same for the video, with a "video/" type, a 50 MiB limit and their two messages; no error key other than the video's appears or changes |
| ProductForm.Arguments | frontend/src/components/AddProductForm.tsx:189-205 | the call gets the parsed positive id and every text field trimmed. Name, artisan and village are then non-empty and the description has at least 10 characters. It also gets the images' upload hashes, and "" for a missing video |
| ProductForm.Submit | frontend/src/components/AddProductForm.tsx:158-205 | validation always replaces the errors, and a valid form's errors end empty. An invalid form shows its errors and sends nothing; a valid form without a signer shows the wallet message and sends nothing. A transaction is sent exactly when the form is valid and a signer exists, with those arguments |
| ProductForm.SubmissionPassesNameGuard | frontend/src/components/AddProductForm.tsx:144 | what the form sends can never trip the contract's empty-name guard, and an owner's send with a new id succeeds |
| ProductForm.AddErrorMessage | frontend/src/components/AddProductForm.tsx:216-231 | "user rejected" wins, then "insufficient funds", then "already exists", then the raw message, then "Failed to add product. Please try again."; a non-Error gives "An unexpected error occurred" |
| ProductForm.AfterSend | frontend/src/components/AddProductForm.tsx:207-234 | submitting ends; success is shown exactly when nothing was thrown, and otherwise the mapped non-empty message |
| ProductForm.DuplicateIdMessage | frontend/src/components/AddProductForm.tsx:224-225 | a message containing the duplicate-id reason, however wrapped, is shown as "Product ID already exists. Please use a different ID." unless the wrapping mentions a rejection or insufficient funds, which are checked first |
| ProductForm.NotOwnerMessage | frontend/src/components/AddProductForm.tsx:226-227 | a message containing the Ownable reason is shown as is, unless the wrapping trips an earlier substring test. The bare reason is shown as itself |
| ProductModal.Validate | frontend/src/components/AddProductModal.tsx:132-172 | a field has an error exactly when its rule fails, with the message that rule gives |
| ProductModal.ValidateFields | frontend/src/components/AddProductModal.tsx:135-168 | name and artisan err when shorter than 3 after trimming ("required" when blank); technique and village when blank; description when shorter than 10 ("required" when blank); date when empty; image when no file is chosen and the URL is blank |
| ProductModal.ValidateForm | frontend/src/components/AddProductModal.tsx:132-172 | the modal's errors are replaced, and validation succeeds exactly when the map is empty, and exactly when every rule passes |
| ProductModal.HandleImageChange | frontend/src/components/AddProductModal.tsx:103-130 | no file changes nothing; a wrong type sets the image error to "Please select a valid image file" and an oversized file to "Image size must be less than 5MB", keeping the chosen file; an accepted file is chosen and its error removed; no other error key is added, removed or changed |
| ProductModal.Submit | frontend/src/components/AddProductModal.tsx:188-238 | validation replaces the errors, which a valid modal ends without. No call for an invalid form or without a signer. Otherwise `registerProduct` gets the trimmed name, artisan, technique, village and description: name and artisan at least 3 characters, technique and village non-empty, description at least 10. It also gets the uploaded image or the typed URL, and the timestamp |
| ProductModal.RegisterErrorMessage | frontend/src/components/AddProductModal.tsx:240-253 | "user rejected", then "insufficient funds", then the raw message, then "Failed to register product. Please try again."; a non-Error gives "An unexpected error occurred" |
| ProductModal.DuplicateReasonPassesThrough | frontend/src/components/AddProductModal.tsx:243-249 | having no "already exists" branch, the modal shows a message containing the duplicate-id reason as is, unless its wrapping trips an earlier test; the bare reason is shown verbatim |
| ProductModal.AfterSend | frontend/src/components/AddProductModal.tsx:236-256 | submitting ends; the modal closes exactly when nothing was thrown, and otherwise shows the mapped message |
| VerificationCard.VerifyErrorMessage | frontend/src/components/VerificationCard.tsx:63-75 | "user rejected", then "Ownable" (shown as "Only contract owner can verify products"), then the raw message, then "Failed to verify product"; a non-Error gives "An unexpected error occurred" |
| VerificationCard.HandleVerify | frontend/src/components/VerificationCard.tsx:39-78 | without a signer only the error is set and no call is made; with one, `verifyProduct` gets the card's id, verifying ends, and `onVerified` fires exactly on success, which also closes the dialog |
| VerificationCard.BackdropClick | frontend/src/components/VerificationCard.tsx:197 | the backdrop closes the dialog only while no verification runs |
| VerificationCard.NotOwnerMessage | frontend/src/components/VerificationCard.tsx:66-69 | any message containing the Ownable reason, the bare reason included, is shown as "Only contract owner can verify products" unless it also mentions a rejection |
| VerificationCard.MissingProductMessage | frontend/src/components/VerificationCard.tsx:66-71 | a message containing the unknown-id reason is shown as is when it trips neither substring test; the bare reason is shown as itself |
| VerificationCard.VerifyOnChain | frontend/src/components/VerificationCard.tsx:39-78 | end to end against the registry. No signer leaves the chain untouched. A non-owner gets the owner-only message unless the provider's text mentions a rejection. The owner verifying an unknown id gets the provider's message itself when it trips neither substring test. The owner verifying an existing product succeeds, and the card notifies |
| ProductDetail.FormatAddress | frontend/src/components/ProductDetail.tsx:21-26 | "Belum diverifikasi" exactly for an empty or all-zero address; otherwise the first 6 characters, "...", and the last 4 |
| ProductDetail.FormatFullAddress | frontend/src/components/ProductDetail.tsx:25 | a 42-character address shortens to 13 characters that start with "0x" and end with its last 4 characters |
| ProductDetail.StatusLabel | frontend/src/components/ProductDetail.tsx:49-54 | "Terverifikasi" exactly when verified, "Belum Verifikasi" otherwise |
| ProductDetail.MediaLabel | frontend/src/components/ProductDetail.tsx:69 | "Tersedia" exactly when the hash is non-empty, "Belum tersedia" otherwise |
| ProductDetail.Describe | frontend/src/components/ProductDetail.tsx:49-169 | the status and the three media labels follow their flags; the coordinates row shows only for non-empty coordinates; the verifier block shows only for verified records, with the shortened verifier address |
| ProductDetail.DetailAfterVerify | frontend/src/components/ProductDetail.tsx:163-169 | an unverified record shows no verifier block, and after the owner verifies it the block shows |
| Ipfs.GetIpfsUrl | frontend/src/libs/ipfs.ts:161-186 | "" stays "", "http…" stays as it is, "ipfs://h" becomes "https://ipfs.io/ipfs/h", anything else stays as it is |
| Ipfs.GetIpfsUrlShape | frontend/src/libs/ipfs.ts:161-186 | every output is its input or starts with "http" |
| Ipfs.GetIpfsUrlIdempotent | frontend/src/libs/ipfs.ts:161-186 | rewriting a rewritten URL changes nothing |
| Ipfs.GatewayOfHash | frontend/src/libs/ipfs.ts:170-178 | "ipfs://" + h always maps to the gateway URL of h |
| Ipfs.UploadImage | frontend/src/libs/ipfs.ts:136-158 | "File must be an image" for a wrong type (checked first), "File size must be less than 5MB" above 5 MiB, the encoded data when encoding succeeds, "Failed to upload image. Please try again." when it fails |
| Outcomes.MessageOr | frontend/src/hooks/useContract.ts:54-56 | `err.message \|\| fallback`: the message when it is non-empty, else the fallback |
| Outcomes.ErrorMessageElse | frontend/src/hooks/useWallet.ts:152 | `err instanceof Error ? err.message : fallback` |
| Wallet.Connected | frontend/src/hooks/useWallet.ts:143-150 | a connection fills account, chain, provider and signer, and flags the network correct exactly on chain 11155111 |
| Wallet.Disconnect | frontend/src/hooks/useWallet.ts:31-42 | every wallet field returns to its initial value and the error is cleared |
| Wallet.AccountsChanged | frontend/src/hooks/useWallet.ts:51-63 | an empty account list disconnects; otherwise only the account and the connected flag change |
| Wallet.CheckConnection | frontend/src/hooks/useWallet.ts:72-97 | an authorised account connects the wallet, anything else leaves it; loading ends and the error is untouched |
| Wallet.ConnectWallet | frontend/src/hooks/useWallet.ts:123-157 | no-op while loading or connected; without MetaMask only the install message is set; otherwise loading ends and the wallet connects or the error is the message or "Gagal menghubungkan wallet" |
| Wallet.SwitchToSepolia | frontend/src/hooks/useWallet.ts:159-191 | without MetaMask only "MetaMask tidak terinstall" is set; otherwise the switch request carries "0xaa36a7", code 4902 falls back to adding the chain, other failures set their message; loading ends and the wallet record is untouched |
| Wallet.ToHex | frontend/src/hooks/useWallet.ts:172 | `toString(16)` yields a non-empty string of lower-case hex digits with no leading zero |
| Wallet.HexRoundTrip | frontend/src/hooks/useWallet.ts:172 | reading back the hex spelling gives the number |
| Wallet.SepoliaHex | frontend/src/config/contract.ts:5 | the chain id 11155111 is spelt "0xaa36a7", which reads back as 11155111 |
| Wallet.TransitionsKeepConsistent | frontend/src/hooks/useWallet.ts:18-191 | every transition keeps the record consistent: connected exactly when an account is set, a signer only with a provider and a connection, the network flag exactly for chain 11155111 |
| Wallet.AccountChangeWithoutSigner | frontend/src/hooks/useWallet.ts:56-61 | an account change on a never-connected wallet marks it connected but leaves it without provider or signer |

## Left out

- The contract's Solidity source is not part of this model. `Registry` states only what the test suite asserts, plus the invariant that makes those assertions hold together.
- Registry.AddProduct: the tests do not fix which guard wins when an id is both duplicate and nameless. The model checks the owner first (the `onlyOwner` modifier runs before the body), then the duplicate id, then the empty name.
- Registry.VerifyProduct: the tests never verify a product twice. The model lets a second verification succeed, so its success condition states that the owner can verify any stored id, verified or not. The caller is recorded as verifier again; it is the owner both times, so the verifier never changes (Registry.RunMonotonic). If the contract rejected a second verification, that success condition would not hold for already verified products.
- Rpc.RevertError: one chain wraps every revert reason in the same text. A real provider may word each error differently. The message lemmas hold for any message containing the reason, so they do not rely on this.
- Registry.GetProductIdByIndex: the revert reason for an index past the end is not asserted anywhere. The model uses its own reason ("Index out of bounds").
- `mintDate` and `verifiedBy` are stored as the block timestamp and the verifying caller, with the zero address until verification. This follows the record's documented meaning; the tests assert neither field.
- Gas, events beyond their arguments, `tx.wait`, and the ABI encoding of `uint256` are not modelled. Ids are unbounded naturals.
- ProductForm.ParseId: JavaScript's `Number()` also accepts hex, exponent, decimal and signed spellings. The model parses only (trimmed) decimal digits, treats everything else as `NaN`, and ignores the 2^53 precision limit.
- `trim` and `toLowerCase` are modelled over ASCII: white space is space, tab, CR, LF, vertical tab and form feed, and only A–Z change case.
- `handleInputChange` (a plain field update) and the modal's ESC-key handler are not modelled.
- FileReader previews are set immediately, because the model has no time.
- Uploads are a function parameter. The Pinata, NFT.Storage and Web3.Storage uploads, `convertToBase64`, `compressImage` and the random placeholder hash (`Math.random`) are outside the model: they are HTTP calls, browser APIs, canvas arithmetic and randomness.
- ProductModal.Submit: the production date reaches the model as an already converted timestamp. `new Date(...).getTime()` is locale- and float-dependent.
- The modal's `registerProduct` is a different function from the registry's `addProduct`. The model describes the call it makes, not its effect on a chain.
- `window.location.reload` on a chain change, the MetaMask event subscription and its clean-up are not modelled. Neither are the `eth_accounts` and `eth_requestAccounts` round trips, which become a probe or attempt parameter.
- `getAllProducts` and `getAllProductsBasicInfo` have `catch` blocks that no modelled call reaches. `getAllProductIds` and `getProduct` catch every thrown value the model has: `Error`s and non-`Error` values without a message. A thrown `null` or `undefined` would make `err.message` itself throw a `TypeError`, and that would reach these outer blocks. Such values are not modelled (see Outcomes.MessageOr). The outer blocks are represented only by the error the inner readers leave behind.
- Outcomes.MessageOr: a thrown value that is not an `Error` is taken to have no message, so it always yields the fallback. ethers throws only `Error` objects. A non-`Error` object with a non-empty `message` property would show that message, and a thrown `null` or `undefined` would raise a `TypeError` in `err.message`. Neither is modelled.
- ContractClient: the readers that make several calls (`EnumerateIds`, `FetchProducts`, `FetchBasicInfos`, `VerifyPage.LoadUnverified`) read one fixed registry state. Transactions mined between two of those calls are not modelled. `Registry.RunMonotonic` bounds what such a transaction could change in a record: only its verification fields.
- Date formatting, the MongoDB and bcrypt API routes, the Hardhat scripts, configuration files, and the render-only pages and cards are outside the model. They are I/O or presentation.
