# MECT built-in functions: a Dafny model

This project models the native token engine of the MECT built-in functions
and the two parsers that read their arguments. The engine keeps every token
balance in the key/value storage of accounts. Each built-in function reads
positional byte-string arguments and checks roles and the frozen, paused and
limited-transfer flags. It then reads, changes and writes records in that
storage, and reports logs and output transfers in the VM output.

What the model covers, module by module:

- `Encoding`, `Names`, `Wrappers`: minimal big-endian integers with the low
  64 bits kept by `Uint64()`, lower-case hex, decimal text, `bytes.Split` on
  one byte, and the built-in function names and errors.
- `MectMetaData`, `Common`, `GasCost`: the two-byte global and user flag
  codecs, the token identifier grammar (`ValidateToken`), `ZeroValueIfNil`
  and `SafeSubUint64`.
- `Store`, `Vm`: an account is a class with its address and a
  `map<Bytes, Stored>` of key/value data (saving nil deletes the key). The VM
  output is a class whose logs, output accounts and gas the functions update.
- `LogsAndEvents`: log entries, their topics, and the split of a token
  identifier into identifier and nonce.
- `MectTransfer`, `LocalMintBurn`, `FreezeWipe`, `GlobalSettings`: fungible
  balances with the frozen and paused checks and the limited-transfer rule.
  Also transfer, local mint and burn, global burn, freeze, unfreeze and wipe,
  and the pause, limited-transfer and burn-for-all toggles.
- `DataStorage`: the split NFT storage. The quantity lives on the user
  account, the metadata is mirrored once per shard on the system account, a
  liquidity counter is deleted at zero, and an "already sent" byte map grows
  to the shard count.
- `NftTransfer`, `MultiTransfer`, `NftCreate`, `NftOps`: single and multiple
  NFT transfers, each with a sender leg and a destination leg. Also NFT
  create (with nonce allocation), burn, add quantity, add URIs and update
  attributes.
- `Roles`, `TransferRole`, `CreateRoleTransfer`, `DeleteMetadata`: role
  lists, including the nonce-range seeding for multi-shard create; the
  capped transfer-role address list; the create-role handover; and the
  administrative deletion and addition of metadata over nonce intervals.
- `ArgChecks`, `TransferParser`, `DataField`: the shared argument checks,
  the three argument layouts of the transfer parser, and the data-field
  classifier with its `token-hexnonce` identifiers.

Each operation that changes state is a method on the `Account` and
`VMOutput` objects. Its `ensures` ties the new state and the result to a pure
specification function of the old state. The promises of the source are then
proved as lemmas about those functions: conservation, exact amounts,
round trips, read-back after a write, error order and "nothing else
changes".

## Model

| member | source | states |
|---|---|---|
| `MectMetaData.GlobalFromBytes` | builtInFunctions/mectMetaData.go:27-37 | a byte string whose length is not 2 decodes to the all-false global record, not to an error |
| `MectMetaData.GlobalToBytes` | builtInFunctions/mectMetaData.go:40-54 | the encoding is 2 bytes with a zero second byte; paused, limited-transfer and burn-for-all are bits 0x01, 0x02, 0x04 of the first byte; decoding it gives the record back for every combination |
| `MectMetaData.UserFromBytes` | builtInFunctions/mectMetaData.go:62-70 | a byte string whose length is not 2 decodes to not frozen |
| `MectMetaData.UserToBytes` | builtInFunctions/mectMetaData.go:73-81 | frozen encodes as [1, 0] and not frozen as [0, 0]; decoding gives the record back |
| `MectMetaData.GlobalFromBytesFirstByteOnly` | builtInFunctions/mectMetaData.go:32-36 | decoding looks only at the three flag bits of the first byte; the second byte and the higher bits have no influence |
| `MectMetaData.GlobalReencode` | builtInFunctions/mectMetaData.go:27-54 | re-encoding a decoded 2-byte global record keeps exactly the three flag bits of the first byte and zeroes the rest |
| `MectMetaData.UserReencode` | builtInFunctions/mectMetaData.go:62-81 | re-encoding a decoded 2-byte user record keeps exactly the frozen bit |
| `MectMetaData.PausedAndLimitedIsThree` | builtInFunctions/mectMetaData.go:43-51 | paused together with limited transfer encodes as [3, 0] |
| `Common.AllTickerChars` | common.go:62-69 | the scan accepts exactly the strings whose every byte is A-Z or 0-9 |
| `Common.AllRandomChars` | common.go:79-86 | the scan accepts exactly the strings whose every byte is a-f or 0-9 |
| `Common.IsTickerValid` | common.go:58-72 | a ticker is valid exactly when it has 3 to 10 bytes, each A-Z or 0-9 |
| `Common.RandomCharsAreValid` | common.go:75-89 | the suffix is valid exactly when it has 6 bytes, each a-f or 0-9 |
| `Common.ValidateToken` | common.go:33-55 | an identifier is valid exactly when its length is 10 to 17, the part before index len-7 is a valid ticker, the byte at len-7 is '-' and the last 6 bytes are a valid suffix |
| `Common.ValidTokenDash` | common.go:39-52 | a valid identifier has exactly one '-', at index len-7 |
| `Common.ValidTokenParts` | common.go:39-52 | a valid identifier is its ticker, one dash and its suffix, and neither part holds a dash |
| `Common.ValidTokenSplit` | common.go:33-55 | splitting a valid identifier on '-' gives exactly the ticker and the random suffix |
| `Common.SplitAtDash` | builtInFunctions/logsAndEvents.go:47 | `bytes.Split` on '-' of a dash-free ticker, one dash and a dash-free suffix gives exactly the ticker and the suffix |
| `Common.SplitAfterFreePrefix` | builtInFunctions/logsAndEvents.go:47 | splitting on '-' a dash-free prefix, one dash and a dash-free rest gives exactly those two pieces |
| `Common.UpperCaseSuffixRejected` | common.go:75-89 | "TOKEN-ABABAB" is not a valid identifier: the suffix must be lower case |
| `Common.ZeroValueIfNil` | common.go:92-98 | nil reads as 0; any other value is returned unchanged |
| `GasCost.SafeSubUint64` | gasCost.go:40-45 | a < b gives (0, ErrSubtractionOverflow); otherwise (a - b, nil), where the result plus b is a, the result is at most a, and it is 0 exactly when a == b |
| `Store.NFTTokenKey` | builtInFunctions/mectNFTCreate.go:276-278 | the NFT key starts with the token key; nonce 0 gives the token key itself and every positive nonce a longer key |
| `Store.NFTKeyInjective` | builtInFunctions/mectNFTCreate.go:276-278 | two valid identifiers with two nonces share an NFT key exactly when both the identifiers and the nonces are equal |
| `Store.KeyFamiliesDistinct` | builtInFunctions/mectNFTCreate.go:17 | token keys, latest-nonce keys, role keys and transfer-allowlist keys never coincide, whatever the identifiers |
| `Store.NFTKeyNotNonceKey` | builtInFunctions/mectNFTCreate.go:301-303 | an NFT key is never a latest-nonce key |
| `Store.NonceKey` | builtInFunctions/mectNFTCreate.go:301-303 | the latest-nonce key is a protected key: the protected prefix, the nonce identifier, then the token, so distinct tokens have distinct keys |
| `Store.LatestNonce` | builtInFunctions/mectNFTCreate.go:257-269 | an absent latest-nonce key reads as 0; otherwise the low 64 bits of the stored big-endian value |
| `Store.SavedLatestNonce` | builtInFunctions/mectNFTCreate.go:271-274 | after saving nonce n the latest nonce reads n, the key exists exactly when n > 0, and no other key changes |
| `Store.SaveLatestNonce` | builtInFunctions/mectNFTCreate.go:271-274 | the account data becomes `SavedLatestNonce` of the old data |
| `LogsAndEvents.NewEntryForMECT` | builtInFunctions/logsAndEvents.go:27-44 | the topics start with the token, the minimal big-endian nonce and value (0 as the empty string); the first extra argument is the address and the others follow the three topics in order |
| `LogsAndEvents.AddMECTEntryInVMOutput` | builtInFunctions/logsAndEvents.go:17-25 | exactly one entry is appended after the existing ones; gas, return data and output accounts are unchanged |
| `LogsAndEvents.NewOutputWithEntry` | builtInFunctions/logsAndEvents.go:17-25 | a fresh output holds the given gas and exactly the one new entry |
| `LogsAndEvents.BoolToSlice` | builtInFunctions/logsAndEvents.go:62-64 | true gives the 4 bytes and false the 5 bytes that `strconv.ParseBool` reads back as the same boolean |
| `LogsAndEvents.ExtractTokenAndNonceAsWritten` | builtInFunctions/logsAndEvents.go:46-60 | the split on every '-' as written: no '-' returns the argument and nonce 0 |
| `LogsAndEvents.ExtractTokenAndNonce` | builtInFunctions/logsAndEvents.go:46-60 | the split at the first '-' used by the model: no '-' returns the argument and nonce 0 |
| `LogsAndEvents.ExtractTokenAndNonceRoundTrip` | builtInFunctions/logsAndEvents.go:46-60 | a valid identifier followed by the minimal big-endian bytes of any nonce splits back into the identifier and that nonce; nonce 0 gives the identifier unchanged |
| `LogsAndEvents.ExtractAfterTicker` | builtInFunctions/logsAndEvents.go:52-59 | after a dash-free ticker, a '-' and six bytes, the identifier is those bytes and the nonce is the big-endian value of the rest (0 when nothing follows) |
| `LogsAndEvents.ExtractAgreesWithoutSecondDash` | builtInFunctions/logsAndEvents.go:46-60 | when no second '-' follows the first, the as-written split and the model's split agree |
| `LogsAndEvents.ExtractAsWrittenLosesDashNonce` | builtInFunctions/logsAndEvents.go:46-60 | for "ABC-123456" followed by nonce 45 (the byte '-') the as-written split returns the whole argument and nonce 0, while the model's split returns the identifier and 45 |
| `ArgChecks.CheckBasicMECTArguments` | builtInFunctions/mectLocalBurn.go:111-125 | succeeds exactly for a present zero call value and at least two arguments; a nil value gives ErrNilValue, a non-zero value ErrBuiltInFunctionCalledWithValue, too few arguments ErrInvalidArguments, in that order |
| `ArgChecks.CheckInputArgumentsForLocalAction` | builtInFunctions/mectLocalBurn.go:127-151 | succeeds exactly when the basic checks pass, caller == recipient, the account is present, the amount is positive and the gas covers the cost; the first failing check gives its error, in that order |
| `ArgChecks.CheckNFTCreateBurnAddInput` | builtInFunctions/mectNFTCreate.go:280-299 | succeeds exactly when the basic checks pass, caller == recipient, the account is present unless the call executes on the destination by the caller, and the gas covers the cost; the errors follow that order |
| `ArgChecks.EntryInRange` | builtInFunctions/multiMECTNFTTransfer.go:180-190 | under the intended guard the three arguments of every entry exist |
| `ArgChecks.GuardsAgreeForSmallCount` | builtInFunctions/multiMECTNFTTransfer.go:174 | whenever three times the count plus the start stays below 2^64, the guard as written and the intended guard agree |
| `ArgChecks.CountGuardWraps` | builtInFunctions/multiMECTNFTTransfer.go:174 | with count (2^65+4)/3 six arguments pass the sender-leg guard and five the destination-leg guard as written, though the intended guard refuses both |
| `GlobalSettings.NewMECTGlobalSettingsFunc` | builtInFunctions/mectGlobalSettings.go:36-38 | construction succeeds exactly for the six pause, limited-transfer and burn-for-all set/unset names, and keeps the name and the set flag; any other name gives ErrInvalidArguments |
| `GlobalSettings.IsCorrectFunction` | builtInFunctions/mectGlobalSettings.go:58-67 | a name is accepted exactly when it is one of the six pause, limited-transfer and burn-for-all set/unset names, that is, exactly when its toggle changes a flag |
| `GlobalSettings.GlobalMetadataAt` | builtInFunctions/mectGlobalSettings.go:206-215 | an absent key decodes to all flags false |
| `GlobalSettings.IsPaused` | builtInFunctions/mectGlobalSettings.go:151-158 | an absent record is not paused; a paused token has a 2-byte record |
| `GlobalSettings.IsLimitedTransfer` | builtInFunctions/mectGlobalSettings.go:161-168 | an absent record is not limited; a limited token has a 2-byte record |
| `GlobalSettings.IsBurnForAll` | builtInFunctions/mectGlobalSettings.go:171-178 | an absent record is not burn-for-all; a burn-for-all token has a 2-byte record |
| `GlobalSettings.Toggled` | builtInFunctions/mectGlobalSettings.go:116-126 | pause/unpause changes only `paused`, set/unset limited transfer only `limitedTransfer`, set/unset burn for all only `burnRoleForAll`, each to the function's set value |
| `GlobalSettings.GlobalSettingsSpec` | builtInFunctions/mectGlobalSettings.go:74-103 | succeeds exactly for zero call value, one argument, the system SC as caller and the system account as recipient, and then stores the toggled record under prefix ++ token |
| `GlobalSettings.ToggleSetting` | builtInFunctions/mectGlobalSettings.go:105-134 | the system account data becomes `ToggledSetting` of the old data: the toggled record saved under the key |
| `GlobalSettings.ProcessGlobalSettings` | builtInFunctions/mectGlobalSettings.go:74-103 | an error leaves the system account unchanged; success returns an empty output and writes exactly the toggled setting |
| `GlobalSettings.ToggleOnlyOwnFlag` | builtInFunctions/mectGlobalSettings.go:111-128 | after a toggle the function's own flag reads its set value, the two other flags read as before, and every other key is unchanged |
| `GlobalSettings.ToggleIdempotent` | builtInFunctions/mectGlobalSettings.go:105-134 | running the same toggle twice leaves what running it once leaves |
| `GlobalSettings.PauseThenIsPaused` | builtInFunctions/mectGlobalSettings.go:120-121 | after a successful pause the token reads as paused and its limited-transfer and burn-for-all flags are unchanged |
| `GlobalSettings.HasTransferRole` | builtInFunctions/mectGlobalSettings.go:181-204 | true exactly when the function is active, the token's allowlist decodes, and it names the sender or the destination |
| `GlobalSettings.IsSenderOrDestinationWithTransferRole` | builtInFunctions/mectGlobalSettings.go:181-204 | the scan of the allowlist returns `HasTransferRole` |
| `Roles.GetRoles` | builtInFunctions/mectRoles.go:129-149 | an absent or empty value reads as a new, empty list (isNew = true); a stored list is returned with isNew = false; anything else fails to decode |
| `Roles.IndexOf` | builtInFunctions/mectRoles.go:120-127 | the index of the first occurrence of the role, or none exactly when the role is absent |
| `Roles.IndexOfUnique` | builtInFunctions/mectRoles.go:120-127 | an occurrence with no earlier occurrence is the index found |
| `Roles.DoesRoleExist` | builtInFunctions/mectRoles.go:120-127 | exist is true exactly when the role is in the list; then the index is its first occurrence, otherwise -1 |
| `Roles.RemoveFirst` | builtInFunctions/mectRoles.go:109-116 | an absent role leaves the list as is; otherwise one element shorter, with exactly one occurrence of the role removed |
| `Roles.DeleteRoles` | builtInFunctions/mectRoles.go:107-118 | the list after deleting is `DeleteRolesSpec`: each listed role removing its first occurrence in turn |
| `Roles.DeleteRolesCount` | builtInFunctions/mectRoles.go:107-118 | after deleting, each role occurs as often as before less the number of times it was listed, never below zero; absent roles are ignored |
| `Roles.RemoveFirstCount` | builtInFunctions/mectRoles.go:114-116 | removing the first occurrence lowers that role's count by one when present and leaves every other count |
| `Roles.AllowedToExecute` | builtInFunctions/mectRoles.go:152-171 | a nil account gives ErrNilUserAccount, an absent role list ErrActionNotAllowed; success exactly when the stored list holds the action |
| `Roles.CheckAllowedToExecute` | builtInFunctions/mectRoles.go:152-171 | returns `AllowedToExecute` of the account |
| `Roles.StartNonceStepValue` | builtInFunctions/mectRoles.go:103 | the span per last byte is MaxUint64 / 256 |
| `Roles.ComputeStartNonce` | builtInFunctions/mectRoles.go:101-105 | the start nonce is the span times the last byte of the address; an empty address panics |
| `Roles.StartNoncesSpaced` | builtInFunctions/mectRoles.go:98-105 | last byte 0 starts at 0, and a larger last byte starts at least a whole span later, so start nonces are strictly increasing in the last byte |
| `Roles.SetRolesSpec` | builtInFunctions/mectRoles.go:44-96 | the basic checks come first, then the caller must be the system SC and the destination present; success implies both |
| `Roles.ContainsRole` | builtInFunctions/mectRoles.go:72-83 | found exactly when the role is among the listed arguments |
| `Roles.ProcessSetRoles` | builtInFunctions/mectRoles.go:44-96 | an error leaves the destination unchanged; success writes exactly the data and output of `SetRolesSpec` |
| `Roles.SetRolesOnAccount` | builtInFunctions/mectRoles.go:59-95 | the account data and the output are those of `SetRolesOn`, the role update, and nothing is written on an error |
| `Roles.SetRolesAppends` | builtInFunctions/mectRoles.go:66-67 | setting roles stores the held roles followed by the listed roles in argument order |
| `Roles.UnsetRolesRemoves` | builtInFunctions/mectRoles.go:68-70 | unsetting lowers each role's count by the number of times it is listed, never below zero; roles not listed keep their count |
| `Roles.SetRolesSeedsNonce` | builtInFunctions/mectRoles.go:72-83 | when the multi-shard create role is listed, for set and unset alike, the latest nonce becomes the start nonce of the recipient; otherwise it is unchanged |
| `Roles.SetRolesLog` | builtInFunctions/mectRoles.go:90-93 | exactly one log entry, whose address is the destination and whose topics are the token, two empty strings and the listed roles |
| `TransferRole.NewMECTTransferRoleAddressFunc` | builtInFunctions/mectTransferRole.go:28-68 | a cap below one is refused with ErrInvalidMaxNumAddresses; otherwise the function keeps the add/delete choice and the cap |
| `TransferRole.AddNewSpecProperties` | builtInFunctions/mectTransferRole.go:128-140 | the deduplicating append `AddNewSpec` keeps the held addresses in order at the front, holds exactly the held and the new addresses, grows by at most the number listed, and adds no duplicate |
| `TransferRole.AddNewAddresses` | builtInFunctions/mectTransferRole.go:128-147 | the nested scan computes `AddNewSpec`, the deduplicating append, and fails with ErrTooManyTransferAddresses exactly when the 32-bit truncated length passes the cap |
| `TransferRole.UpdatedAddresses` | builtInFunctions/mectTransferRole.go:101-108 | adding succeeds exactly when the appended list stays within the cap; deleting removes the listed addresses one occurrence each |
| `TransferRole.TransferAddressSpec` | builtInFunctions/mectTransferRole.go:75-126 | the basic argument checks fail first; success implies the caller is the system SC, the recipient the system account, and the stored list decodes |
| `TransferRole.ProcessTransferAddress` | builtInFunctions/mectTransferRole.go:75-126 | an error leaves the system account unchanged; success writes exactly the data and output of `TransferAddressSpec` |
| `TransferRole.AddAddressesAllowlists` | builtInFunctions/mectTransferRole.go:101-110 | after adding, every listed address has the transfer role as sender or destination, the held list is a prefix of the new one, the cap holds and no duplicate appears |
| `TransferRole.AddAddressesCap` | builtInFunctions/mectTransferRole.go:142-144 | once the checks pass, adding fails with the cap error exactly when the deduplicated list passes the cap |
| `TransferRole.DeleteAddressesRemoves` | builtInFunctions/mectTransferRole.go:106-108 | after deleting, each address occurs as often as before less the number of times listed; an address held once and listed is gone |
| `TransferRole.TransferAddressLog` | builtInFunctions/mectTransferRole.go:120-123 | exactly one log entry, for the system account, with topics the token, two empty strings and the listed addresses |
| `FreezeWipe.WipeIfApplicable` | builtInFunctions/mectFreezeWipe.go:90-108 | succeeds exactly when the record decodes and is frozen; then the key is deleted, the wiped amount is the balance and no other key changes; an unfrozen record gives ErrCannotWipeAccountNotFrozen |
| `FreezeWipe.ToggleFreeze` | builtInFunctions/mectFreezeWipe.go:110-127 | succeeds exactly when the record decodes; the record's frozen flag becomes the requested one, the balance is kept and reported, no other key changes |
| `FreezeWipe.FreezeWipeSpec` | builtInFunctions/mectFreezeWipe.go:45-88 | a missing call value panics; success implies a zero call value, exactly one argument, the system SC as caller and a destination account; a successful wipe found a frozen record |
| `FreezeWipe.ProcessFreezeWipe` | builtInFunctions/mectFreezeWipe.go:45-88 | an error leaves the destination unchanged; success writes exactly the data and output of `FreezeWipeSpec` |
| `FreezeWipe.FrozenAccountCannotMove` | builtInFunctions/mectFreezeWipe.go:110-127 | after a freeze, a balance change of that fungible token on the account, outside the system SC and a returning call, fails with ErrMECTIsFrozenForAccount |
| `FreezeWipe.FreezeThenUnfreeze` | builtInFunctions/mectFreezeWipe.go:110-127 | freezing then unfreezing succeeds, leaves the record unfrozen and keeps the balance |
| `FreezeWipe.WipeNeedsFrozen` | builtInFunctions/mectFreezeWipe.go:90-108 | with valid arguments, a wipe succeeds exactly when the record is frozen, fails otherwise with ErrCannotWipeAccountNotFrozen, and leaves a zero balance |
| `LocalMintBurn.LocalMintSpec` | builtInFunctions/mectLocalMint.go:64-98 | the local-action checks fail first; success needs the local mint role and an amount of at most 100 bytes, adds the positive amount to the caller's balance of that token and changes no other key |
| `LocalMintBurn.ProcessLocalMint` | builtInFunctions/mectLocalMint.go:64-98 | an error leaves the caller unchanged; success writes exactly the data and output of `LocalMintSpec` |
| `LocalMintBurn.IsAllowedToBurn` | builtInFunctions/mectLocalBurn.go:96-104 | allowed exactly when the token is burnable by all or the caller holds the local burn role |
| `LocalMintBurn.CheckAllowedToBurn` | builtInFunctions/mectLocalBurn.go:96-104 | returns `IsAllowedToBurn` of the caller's account |
| `LocalMintBurn.LocalBurnSpec` | builtInFunctions/mectLocalBurn.go:64-94 | the local-action checks fail first; success needs the burn permission and a positive amount within the balance, lowers the balance by it and changes no other key |
| `LocalMintBurn.ProcessLocalBurn` | builtInFunctions/mectLocalBurn.go:64-94 | an error leaves the caller unchanged; success writes exactly the data and output of `LocalBurnSpec` |
| `LocalMintBurn.MintThenBurnRestores` | builtInFunctions/mectLocalMint.go:86-88 | a local burn with the same arguments after a local mint gives back the original balance |
| `LocalMintBurn.BurnSpec` | builtInFunctions/mectBurn.go:68-120 | the basic checks fail first; success needs exactly two arguments, a positive amount within the balance, the system SC as recipient, a caller account and enough gas, and lowers only that token's balance |
| `LocalMintBurn.ProcessBurn` | builtInFunctions/mectBurn.go:68-120 | an error leaves the caller unchanged; success writes exactly the data and output of `BurnSpec` |
| `LocalMintBurn.EmitBurn` | builtInFunctions/mectBurn.go:104-117 | the output keeps the computed gas, carries the transfer back to a contract caller only, and holds the one burn log entry |
| `MectTransfer.GetMECTData` | builtInFunctions/mectTransfer.go:323-340 | an absent or empty value is a new fungible record with zero balance; a stored record is returned; any other value fails to decode |
| `MectTransfer.BalanceOf` | builtInFunctions/mectTransfer.go:323-340 | an absent key holds zero; a readable record holds its value |
| `MectTransfer.ArePropertiesEmpty` | builtInFunctions/mectTransfer.go:295-302 | true exactly when every flag byte is zero |
| `MectTransfer.SavedMECTData` | builtInFunctions/mectTransfer.go:304-321 | a record with zero value and no flags is deleted, any other is stored; reading it back gives the record, or a new record after a delete; no other key changes |
| `MectTransfer.SaveMECTData` | builtInFunctions/mectTransfer.go:304-321 | the account data becomes `SavedMECTData` of the old data |
| `MectTransfer.CheckFrozeAndPause` | builtInFunctions/mectTransfer.go:269-293 | passes exactly for a call returning with an error, for the system SC, or for an unfrozen account and an unpaused token; a frozen account is reported before a pause |
| `MectTransfer.AddToBalanceSpec` | builtInFunctions/mectTransfer.go:234-267 | success needs a readable fungible record that passes the frozen and pause check, moves the balance by exactly the delta to a non-negative value and touches no other key; a balance that would go negative fails; an emptied record with no flags is deleted |
| `MectTransfer.AddToMECTBalance` | builtInFunctions/mectTransfer.go:234-267 | an error leaves the account unchanged; success writes exactly `AddToBalanceSpec` |
| `MectTransfer.AddThenSubtractRestores` | builtInFunctions/mectTransfer.go:256-261 | adding a delta and then its negation gives back the original balance |
| `MectTransfer.LimitedTransferCheck` | builtInFunctions/mectTransfer.go:346-375 | passes exactly for a returning call, on the destination's shard, for a token without limited transfer, or when the allowlist or a transfer role of either party permits; a failure is the destination's role error |
| `MectTransfer.CheckIfTransferCanHappenWithLimitedTransfer` | builtInFunctions/mectTransfer.go:346-375 | returns `LimitedTransferCheck` of the two accounts |
| `MectTransfer.HexAll` | builtInFunctions/mectTransfer.go:215-217 | each argument is replaced by its hex encoding, in order |
| `MectTransfer.TransferTxDataRoundTrip` | builtInFunctions/mectTransfer.go:214-217 | the forwarded call data splits at '@' back into the function name and the hex of every argument, which decodes to the argument |
| `MectTransfer.WithOutputTransfer` | builtInFunctions/mectTransfer.go:205-232 | the output accounts become the one recipient with one zero-value transfer carrying the call data and all the remaining gas, which drops to zero; logs and return data are kept |
| `MectTransfer.AddOutputTransferToVMOutput` | builtInFunctions/mectTransfer.go:205-232 | the output becomes `WithOutputTransfer` of the old output; the loop builds the call data |
| `MectTransfer.DataOf` | builtInFunctions/mectTransfer.go:135-155 | an account present in this shard gives its data, an absent one nothing |
| `MectTransfer.TransferPreChecks` | builtInFunctions/mectTransfer.go:107-139 | passing implies the basic checks pass and the amount is positive; a recipient on the metachain before the transfer-to-meta epoch gives ErrInvalidRcvAddr |
| `MectTransfer.CreditedOutput` | builtInFunctions/mectTransfer.go:160-186 | the log names the destination; it fails exactly for a contract call after the transfer without a function-name argument (the index panic) |
| `MectTransfer.ReceiveSpec` | builtInFunctions/mectTransfer.go:147-202 | the sender's data is passed through; with no destination in this shard there is no destination data and the result succeeds |
| `MectTransfer.TransferSpec` | builtInFunctions/mectTransfer.go:100-203 | there is new data for exactly the accounts present in this shard, and a failed pre-check changes neither |
| `MectTransfer.ProcessMECTTransfer` | builtInFunctions/mectTransfer.go:100-203 | both accounts hold exactly the data of `TransferSpec`, also on an error, and the result is its result |
| `MectTransfer.CheckTransferPreconditions` | builtInFunctions/mectTransfer.go:107-139 | returns `TransferPreChecks` |
| `MectTransfer.Receive` | builtInFunctions/mectTransfer.go:147-202 | the destination holds exactly the data of `ReceiveSpec`, and the result is its result |
| `MectTransfer.EmitCredited` | builtInFunctions/mectTransfer.go:160-186 | the result is `CreditedOutput` |
| `MectTransfer.TransferMovesExactAmount` | builtInFunctions/mectTransfer.go:141-158 | within one shard a successful transfer debits the sender and credits the destination by the same positive amount; the sum of the two balances is kept and the sender's stays non-negative |
| `MectTransfer.TransferErrorWrites` | builtInFunctions/mectTransfer.go:107-158 | a failed pre-check changes nothing; any error but the index panic leaves the destination as it was; the sender is only left debited when a destination exists |
| `MectTransfer.LimitedTransferEnforced` | builtInFunctions/mectTransfer.go:125-133 | on the sender's shard, a limited token moves only when the allowlist or a transfer role of either party permits it |
| `MectTransfer.CrossShardForwardsArguments` | builtInFunctions/mectTransfer.go:189-202 | for a destination in another shard and a contract caller, one zero-value transfer goes to the recipient whose call data names the transfer function and decodes to every argument; all the gas goes with it |
| `DataStorage.MirrorOf` | builtInFunctions/mectDataStorage.go:143-163 | nothing stored gives no mirror, a stored record is the mirror, any other value fails to decode |
| `DataStorage.GetNFTOnDestination` | builtInFunctions/mectDataStorage.go:108-141 | new exactly when nothing is stored, and then the empty fungible record; a stored record is returned, with only its metadata replaced by the mirror's once metadata lives on the system account; other values fail to decode |
| `DataStorage.GetNFTOnSender` | builtInFunctions/mectDataStorage.go:91-105 | nothing stored gives ErrNewNFTDataOnSenderAddress; otherwise the record read as on the destination |
| `DataStorage.CollectionFrozenCheck` | builtInFunctions/mectDataStorage.go:180-213 | passes exactly when the check is not active, for nonce 0, for a returning call, or when the collection record on the account is not frozen; a frozen one gives ErrMECTIsFrozenForAccount |
| `DataStorage.FrozenPauseCheck` | builtInFunctions/mectDataStorage.go:215-239 | passes exactly when the token key, the nonce key and the collection all pass |
| `DataStorage.Zeros` | builtInFunctions/mectDataStorage.go:375 | n zero bytes |
| `DataStorage.MarkShard` | builtInFunctions/mectDataStorage.go:388-394 | the metachain marks nothing; another shard's byte is set and no other byte changes; a shard past the bitmap panics |
| `DataStorage.ReservedForOldToken` | builtInFunctions/mectDataStorage.go:400-431 | without the fix the mirror is kept; with it a nil account is an error, and a holder record that still has metadata clears the tracking marker |
| `DataStorage.NewMirror` | builtInFunctions/mectDataStorage.go:371-385 | the mirror has the record's type and metadata and zero liquidity; before metadata is sent always it has one zero byte per shard and no marker; a first mirror after that has no shard bytes and the marker unless the nonce is an old one |
| `DataStorage.MarkShards` | builtInFunctions/mectDataStorage.go:387-395 | once metadata is sent always nothing is marked; otherwise the bitmap keeps its length |
| `DataStorage.MirrorSaveSpec` | builtInFunctions/mectDataStorage.go:346-398 | nonce 0 or a record without metadata writes nothing, nor does an existing mirror without mustUpdate; only the mirror's key can change |
| `DataStorage.SaveMECTMetaDataToSystemAccount` | builtInFunctions/mectDataStorage.go:346-398 | an error leaves the system account unchanged; success writes exactly `MirrorSaveSpec` |
| `DataStorage.SetReservedToNilForOldToken` | builtInFunctions/mectDataStorage.go:400-431 | returns `ReservedForOldToken` of the holder's data |
| `DataStorage.SaveNFTSpec` | builtInFunctions/mectDataStorage.go:297-344 | a successful save passed the frozen and pause checks first |
| `DataStorage.SaveMECTNFTToken` | builtInFunctions/mectDataStorage.go:297-344 | an error leaves both accounts unchanged; success writes exactly the holder and system data of `SaveNFTSpec` and returns the record written |
| `DataStorage.LiquiditySpec` | builtInFunctions/mectDataStorage.go:242-294 | a no-op when either flag is off or for nonce 0; only the nonce's mirror can change |
| `DataStorage.AddToLiquiditySystemAcc` | builtInFunctions/mectDataStorage.go:242-294 | an error leaves the system account unchanged; success writes exactly `LiquiditySpec` |
| `DataStorage.Grown` | builtInFunctions/mectDataStorage.go:504-510 | a shorter bitmap is grown to n with its bytes kept and zeros after; a longer one is kept |
| `DataStorage.GrowBitmap` | builtInFunctions/mectDataStorage.go:504-510 | the copy loop computes `Grown` |
| `DataStorage.WasAlreadySentSpec` | builtInFunctions/mectDataStorage.go:469-518 | without the save to the system account it is not sent; nonce 0 and a same-shard destination count as sent; only the nonce's mirror can change |
| `DataStorage.WasAlreadySentToDestinationShardAndUpdateState` | builtInFunctions/mectDataStorage.go:469-518 | an error leaves the system account unchanged; success writes exactly `WasAlreadySentSpec` and returns its answer |
| `DataStorage.MultiMetaSpec` | builtInFunctions/mectDataStorage.go:578-615 | a count of zero or too few arguments gives ErrInvalidArguments and writes nothing |
| `DataStorage.AddMetaDataToSystemAccountFromMultiTransfer` | builtInFunctions/mectDataStorage.go:578-615 | the system data and the status are exactly those of `MultiMetaSpec`; the loop keeps the mirrors written before a failure |
| `DataStorage.AddMetaFromEntry` | builtInFunctions/mectDataStorage.go:594-612 | one entry of the loop: a failure ends with the spec's outcome; a success hands the spec on to the next entry unchanged |
| `DataStorage.LiquidityMovesByDelta` | builtInFunctions/mectDataStorage.go:274-293 | while tracked, a change fails with ErrInvalidLiquidityForMECT exactly when the result would be negative; otherwise the liquidity moves by exactly the delta, the mirror is deleted exactly at zero and stays tracked above it |
| `DataStorage.LiquidityStaysNonNegative` | builtInFunctions/mectDataStorage.go:274-277 | a successful change never takes a non-negative liquidity below zero |
| `DataStorage.OldTokenLiquidityRepair` | builtInFunctions/mectDataStorage.go:266-272 | with the fix active, taking from a tracked mirror at zero stops the tracking, keeps the zero value and the metadata |
| `DataStorage.UntrackedLiquidityUnchanged` | builtInFunctions/mectDataStorage.go:262-264 | a mirror without the tracking marker is left exactly as it was |
| `DataStorage.FirstMirrorTracksLiquidity` | builtInFunctions/mectDataStorage.go:371-385 | the first save of a nonce once metadata is sent always writes a tracked mirror at zero liquidity carrying the record's metadata and type |
| `DataStorage.MirrorMarksShards` | builtInFunctions/mectDataStorage.go:371-397 | before metadata is sent always, the mirror has one byte per shard, with this shard's and the sender's bytes set and every other byte zero |
| `DataStorage.SaveThenGet` | builtInFunctions/mectDataStorage.go:108-141 | a positive record saved and read back gives the record again: whole, or with the metadata from the mirror and no reserved bytes once metadata lives on the system account |
| `DataStorage.SaveKeepsHolderRecordSmall` | builtInFunctions/mectDataStorage.go:320-343 | a quantity of zero or less deletes the holder's key and keeps an existing mirror; a positive one stores only type, quantity and flags once metadata lives on the system account, the whole record otherwise; no other key changes |
| `DataStorage.FrozenCollectionBlocksSave` | builtInFunctions/mectDataStorage.go:180-213 | a frozen collection record blocks the save of any of its nonces with ErrMECTIsFrozenForAccount, even when the nonce is neither frozen nor paused |
| `DataStorage.WasAlreadySentMarksOnce` | builtInFunctions/mectDataStorage.go:496-518 | after a not-yet-sent answer the bitmap covers every shard and marks the destination's; asking again answers sent and changes nothing |
| `DataStorage.MultiMetaSkipsPlainEntries` | builtInFunctions/mectDataStorage.go:598-600 | entries without a nonce or with a short value argument write no mirror |
| `NftTransfer.CreditSpec` | builtInFunctions/mectNFTTransfer.go:399-433 | the record saved on the destination is the incoming record with the quantity the destination already held added; when the destination's record cannot be read nothing is written |
| `NftTransfer.AddNFTToDestination` | builtInFunctions/mectNFTTransfer.go:399-433 | the destination, the system account and the result are exactly those of `CreditSpec` |
| `NftTransfer.NFTCallArgs` | builtInFunctions/mectNFTTransfer.go:330-356 | the forwarded arguments are the call's own, in order, with the fourth replaced by the payload |
| `NftTransfer.WithNFTTransfer` | builtInFunctions/mectNFTTransfer.go:435-462 | the output accounts become the recipient with one zero-value transfer of the given gas carrying the call data; gas, logs and return data are kept |
| `NftTransfer.AddNFTTransferToVMOutput` | builtInFunctions/mectNFTTransfer.go:435-462 | the output becomes `WithNFTTransfer` of the old output |
| `NftTransfer.Payload` | builtInFunctions/mectNFTTransfer.go:338-352 | the serialized record unless the shard already has the metadata and the quantity is not one; then the zero byte |
| `NftTransfer.PayloadGas` | builtInFunctions/mectNFTTransfer.go:338-348 | no gas is charged when the zero byte is sent |
| `NftTransfer.RouteSpec` | builtInFunctions/mectNFTTransfer.go:354-396 | adding the calls keeps the logs and the return data |
| `NftTransfer.AddTransferOutputs` | builtInFunctions/mectNFTTransfer.go:344-396 | the output and the status are exactly those of `RouteSpec` |
| `NftTransfer.ForwardSpec` | builtInFunctions/mectNFTTransfer.go:322-397 | the output keeps its logs |
| `NftTransfer.CreateNFTOutputTransfers` | builtInFunctions/mectNFTTransfer.go:322-397 | the system account, the output and the status are exactly those of `ForwardSpec` |
| `NftTransfer.FinishSpec` | builtInFunctions/mectNFTTransfer.go:298-319 | the sender's data and the loaded destination are passed through; there is no separate destination handle |
| `NftTransfer.DeliverSpec` | builtInFunctions/mectNFTTransfer.go:263-319 | the sender's data is passed through; towards another shard the loaded account is left as it was |
| `NftTransfer.DebitSpec` | builtInFunctions/mectNFTTransfer.go:223-261 | a successful debit had a sender, enough gas, a non-zero nonce, and a record holding at least the quantity sent |
| `NftTransfer.SenderLegSpec` | builtInFunctions/mectNFTTransfer.go:219-320 | there is new sender data exactly when a sender is present, and no destination handle |
| `NftTransfer.ProcessNFTTransferOnSenderShard` | builtInFunctions/mectNFTTransfer.go:219-320 | the sender, the loaded destination, the system account and the result are exactly those of `SenderLegSpec`, also on an error |
| `NftTransfer.Debit` | builtInFunctions/mectNFTTransfer.go:223-261 | an error changes nothing; success writes exactly the sender and system data of `DebitSpec` and returns the record read |
| `NftTransfer.Deliver` | builtInFunctions/mectNFTTransfer.go:263-319 | the loaded destination, the system account and the result are exactly those of `DeliverSpec` |
| `NftTransfer.Finish` | builtInFunctions/mectNFTTransfer.go:298-319 | the system account and the result are exactly those of `FinishSpec` |
| `NftTransfer.Emit` | builtInFunctions/mectNFTTransfer.go:308-319 | the system account and the result are exactly those of `EmitSpec`, the forward of `createNFTOutputTransfers` followed by the log entry |
| `NftTransfer.IncomingRecord` | builtInFunctions/mectNFTTransfer.go:175-185 | the zero byte stands for a bare non-fungible record of the quantity argument; any other payload is decoded |
| `NftTransfer.ReceiveLegSpec` | builtInFunctions/mectNFTTransfer.go:162-216 | a sender handle present or a destination missing gives ErrInvalidRcvAddr; there is destination data exactly when a destination is present |
| `NftTransfer.NFTTransferSpec` | builtInFunctions/mectNFTTransfer.go:143-217 | the basic checks and fewer than four arguments fail first and change nothing; there is new data exactly for the accounts present |
| `NftTransfer.ProcessNFTTransfer` | builtInFunctions/mectNFTTransfer.go:143-217 | the sender, the destination, the loaded account, the system account and the result are exactly those of `NFTTransferSpec`, also on an error |
| `NftTransfer.SenderRecordQuantity` | builtInFunctions/mectDataStorage.go:91-141 | the sender's record, once read, holds exactly the stored quantity |
| `NftTransfer.SaveSetsQuantity` | builtInFunctions/mectDataStorage.go:320-343 | a save of a non-negative quantity leaves the holder with exactly that quantity |
| `NftTransfer.SaveKeepsLiquidity` | builtInFunctions/mectDataStorage.go:366-376 | a save without mustUpdate keeps the liquidity and leaves an existing mirror alone |
| `NftTransfer.FrozenDestinationRefused` | builtInFunctions/mectNFTTransfer.go:408-415 | a destination whose record is frozen is refused with ErrMECTIsFrozenForAccount and nothing is written |
| `NftTransfer.DebitTakesQuantity` | builtInFunctions/mectNFTTransfer.go:241-261 | the record read holds the stored quantity, the saved one that quantity less the quantity sent, and the liquidity is unchanged |
| `NftTransfer.DeliverSameShardUnfolds` | builtInFunctions/mectNFTTransfer.go:266-291 | a successful delivery in the same shard is the destination's credit followed by the limited-transfer check and the output |
| `NftTransfer.DeliverCrossShardUnfolds` | builtInFunctions/mectNFTTransfer.go:291-296 | towards another shard, a failed liquidity drop is the result; otherwise the rest runs on the lowered liquidity |
| `NftTransfer.FinishWritesShardMark` | builtInFunctions/mectNFTTransfer.go:303-319 | after the debit, a successful finish writes only the shard mark on the system account, and its gas and calls are those of `createNFTOutputTransfers` |
| `NftTransfer.EmitKeepsForward` | builtInFunctions/mectNFTTransfer.go:308-317 | the output is the forward's, with the same system account, gas and calls, plus the log entry |
| `NftTransfer.ForwardWritesMark` | builtInFunctions/mectNFTTransfer.go:333-336 | a successful forward leaves the system account as the already-sent update left it |
| `NftTransfer.SameShardDeliverCredits` | builtInFunctions/mectNFTTransfer.go:266-291 | within one shard the destination is credited exactly the quantity handed on and the liquidity does not move |
| `NftTransfer.SameShardCreditMoves` | builtInFunctions/mectNFTTransfer.go:417-430 | a credit within one shard adds the quantity to the destination's record and leaves the liquidity alone |
| `NftTransfer.CreditIsSave` | builtInFunctions/mectNFTTransfer.go:408-430 | after a successful credit the destination holds what the save of the credited record writes, whatever the shards |
| `NftTransfer.CreditMovesQuantity` | builtInFunctions/mectNFTTransfer.go:408-430 | a successful credit adds the incoming quantity to the destination's record of its key and leaves every other key alone |
| `NftTransfer.SameShardTransferConserves` | builtInFunctions/mectNFTTransfer.go:249-296 | within one shard the sender loses and the destination gains exactly the quantity sent, and the liquidity does not move |
| `NftTransfer.CrossShardDeliverMovesLiquidity` | builtInFunctions/mectNFTTransfer.go:291-296 | towards another shard nobody here is credited and a tracked liquidity drops by the quantity |
| `NftTransfer.CrossShardSendMovesLiquidity` | builtInFunctions/mectNFTTransfer.go:249-296 | towards another shard the sender loses the quantity sent and a tracked liquidity drops by the same amount |
| `NftTransfer.ReceiveMovesLiquidity` | builtInFunctions/mectNFTTransfer.go:170-194 | on the destination's shard, a call from another shard credits the destination the incoming quantity and raises a tracked liquidity by as much |
| `NftTransfer.ReceiveLegCredits` | builtInFunctions/mectNFTTransfer.go:175-194 | a successful destination leg decoded a record and is its credit |
| `NftTransfer.CrossShardCreditMoves` | builtInFunctions/mectNFTTransfer.go:417-430 | a credit from another shard adds the incoming quantity to the destination's record and to a tracked liquidity |
| `NftTransfer.ForwardedRecordCarriesQuantity` | builtInFunctions/mectNFTTransfer.go:330-378 | towards another shard the call data splits back into the function and the arguments, and the record the destination reads from it, the serialized record or the zero byte, carries the quantity sent |
| `NftTransfer.ForwardAccountsForGas` | builtInFunctions/mectNFTTransfer.go:338-378 | the gas left, the gas the added call carries and the payload's gas add up to the gas at the start |
| `NftTransfer.SameShardPayloadGas` | builtInFunctions/mectNFTTransfer.go:338-348 | within one shard with metadata on the system account, no payload gas is charged unless the record handed on holds exactly one unit |
| `NftTransfer.ReceiveKeepsGas` | builtInFunctions/mectNFTTransfer.go:196-212 | the destination's shard charges no gas: what remains and what the contract call carries make up the gas provided |
| `MultiTransfer.InsufficientQuantityError` | builtInFunctions/multiMECTNFTTransfer.go:398-405 | the error is ErrInsufficientQuantityMECT naming the token; the nonce is appended exactly when it is not zero |
| `MultiTransfer.InsufficientQuantityNamesNonce` | builtInFunctions/multiMECTNFTTransfer.go:398-405 | two nonces of one token never give the same insufficient-quantity error |
| `MultiTransfer.TakeSpec` | builtInFunctions/multiMECTNFTTransfer.go:351-364 | a zero quantity is refused, a failed read of the sender's record is passed on, a record holding less than the quantity gives the insufficient-quantity error; on success the record read holds the sender's quantity, at least the positive quantity sent, and the sender's record of that key is left holding exactly its quantity minus the quantity sent |
| `MultiTransfer.TakeKeepsOtherKey` | builtInFunctions/multiMECTNFTTransfer.go:351-369 | a successful debit leaves the sender's record of every other key at its quantity |
| `MultiTransfer.GiveSpec` | builtInFunctions/multiMECTNFTTransfer.go:371-395 | the sender is untouched; without a local destination the record handed on is the one taken; with one, the credited record holds the quantity plus what the destination already held, and the destination's record of that key grows by exactly the quantity handed on |
| `MultiTransfer.OneSpec` | builtInFunctions/multiMECTNFTTransfer.go:344-396 | account identities are kept; on success the sender's record of the entry's key drops by the entry's value and a destination in this shard gains exactly that value; for a destination in another shard the record handed on carries exactly the quantity sent |
| `MultiTransfer.OneSpecMoves` | builtInFunctions/multiMECTNFTTransfer.go:344-396 | one entry, key by key: the sender loses and a local destination gains the entry's value under the entry's key, and every other key keeps its quantity on both accounts |
| `MultiTransfer.TakeFromSender` | builtInFunctions/multiMECTNFTTransfer.go:351-369 | on error neither the sender nor the system account changes; on success both take the values TakeSpec gives, so the sender's record drops by exactly the quantity sent |
| `MultiTransfer.GiveToDestination` | builtInFunctions/multiMECTNFTTransfer.go:371-395 | the destination and system account take the state GiveSpec gives, and the result is its result |
| `MultiTransfer.TransferOneTokenOnSenderShard` | builtInFunctions/multiMECTNFTTransfer.go:344-396 | the three accounts and the result are those OneSpec gives from the old state: the sender's record drops and a local destination's grows by exactly the entry's value |
| `MultiTransfer.SendFrom` | builtInFunctions/multiMECTNFTTransfer.go:304-327 | the loop keeps the account identities and, on success, hands on one record per remaining entry; its debit and credit per key are SendFromMoves |
| `MultiTransfer.SendAt` | builtInFunctions/multiMECTNFTTransfer.go:304-327 | one unfolding of the loop from an entry in range: same guarantees as SendFrom |
| `MultiTransfer.CrossShardRecordsCarryQuantities` | builtInFunctions/multiMECTNFTTransfer.go:304-327 | with the destination in another shard, record j handed on carries exactly entry j's quantity |
| `MultiTransfer.SendFromMoves` | builtInFunctions/multiMECTNFTTransfer.go:300-327 | when every entry goes through, the sender's record of each key drops by the total value the entries move under that key, and a destination in this shard gains exactly that total |
| `MultiTransfer.MovedDistinct` | builtInFunctions/multiMECTNFTTransfer.go:300-327 | with pairwise distinct keys, each entry's key moves by exactly that entry's value |
| `MultiTransfer.MovedAbsent` | builtInFunctions/multiMECTNFTTransfer.go:300-327 | a key no entry names does not move |
| `MultiTransfer.SendEntry` | builtInFunctions/multiMECTNFTTransfer.go:305-326 | one pass: an error leaves the books where the loop specification stops; success is one step of SendFrom and appends exactly one log entry |
| `MultiTransfer.SendAll` | builtInFunctions/multiMECTNFTTransfer.go:300-327 | the accounts end as SendFrom says; on success the sender's record of each key has dropped, and a local destination's has grown, by the total value the entries move under it; the records are handed on and the logs are one entry per argument entry, in order; gas, return data and output accounts are untouched |
| `MultiTransfer.SendLoop` | builtInFunctions/multiMECTNFTTransfer.go:304-327 | the while loop reaches the state SendFrom prescribes, or stops at its first error |
| `MultiTransfer.SendNext` | builtInFunctions/multiMECTNFTTransfer.go:305-326 | the loop invariant is carried from entry i to i + 1 or the loop stops where the specification does |
| `MultiTransfer.NonceArg` | builtInFunctions/multiMECTNFTTransfer.go:437-441 | the nonce argument is never empty and reads back as the nonce |
| `MultiTransfer.PackOne` | builtInFunctions/multiMECTNFTTransfer.go:436-470 | three arguments: the token name, the nonce, and a value argument that is the marshalled record or the quantity; only the marshalled form costs gas, and a first send to a shard always marshals |
| `MultiTransfer.PackFrom` | builtInFunctions/multiMECTNFTTransfer.go:435-471 | gas never grows and on success the arguments lay out every entry in order |
| `MultiTransfer.LaidOutAt` | builtInFunctions/multiMECTNFTTransfer.go:435-471 | entry j sits at position 3*j of the packed arguments, with its name, its nonce and the argument that carries its record or value |
| `MultiTransfer.LaidOutLength` | builtInFunctions/multiMECTNFTTransfer.go:431-471 | the packed arguments are exactly three per entry |
| `MultiTransfer.MultiRouteSpec` | builtInFunctions/multiMECTNFTTransfer.go:473-516 | logs and return data are kept; gas left plus gas forwarded equals gas before; a destination in another shard always gets exactly one multi-transfer call carrying the packed arguments |
| `MultiTransfer.AddMultiTransferOutputs` | builtInFunctions/multiMECTNFTTransfer.go:473-516 | the output becomes the one MultiRouteSpec gives |
| `MultiTransfer.MultiOutputsSpec` | builtInFunctions/multiMECTNFTTransfer.go:424-517 | logs are kept and gas left plus gas forwarded never exceeds the gas before |
| `MultiTransfer.PackEntry` | builtInFunctions/multiMECTNFTTransfer.go:436-470 | one pass of the loop changes the system data and the gas as PackOne says and nothing else of the output |
| `MultiTransfer.CreateMultiOutputTransfers` | builtInFunctions/multiMECTNFTTransfer.go:424-517 | the system account and output end as MultiOutputsSpec gives |
| `MultiTransfer.SendChecks` | builtInFunctions/multiMECTNFTTransfer.go:257-280 | success means a destination of the caller's length other than the caller, a positive count with room for its entries, and gas covering the 64-bit per-entry cost; a zero or uncovered count is refused |
| `MultiTransfer.UserAccount` | builtInFunctions/multiMECTNFTTransfer.go:407-422 | the destination is loaded exactly when it is in this shard |
| `MultiTransfer.ShipSpec` | builtInFunctions/multiMECTNFTTransfer.go:294-341 | identities kept; on success the logs are one entry per argument entry and no gas is created |
| `MultiTransfer.Ship` | builtInFunctions/multiMECTNFTTransfer.go:294-341 | the accounts and the fresh output are those ShipSpec gives |
| `MultiTransfer.SendAcceptedSpec` | builtInFunctions/multiMECTNFTTransfer.go:282-341 | only an existing sender can succeed; the sender keeps a record exactly when it exists; a destination in another shard is not written |
| `MultiTransfer.ShippedOutcome` | builtInFunctions/multiMECTNFTTransfer.go:329-334 | the loaded destination changes only when it is the one credited |
| `MultiTransfer.SendAccepted` | builtInFunctions/multiMECTNFTTransfer.go:282-341 | the accounts and fresh output are those SendAcceptedSpec gives |
| `MultiTransfer.ShipAccepted` | builtInFunctions/multiMECTNFTTransfer.go:294-341 | the accounts and fresh output are those ShippedOutcome gives |
| `MultiTransfer.SendRefusal` | builtInFunctions/multiMECTNFTTransfer.go:282-292 | nothing refuses the call exactly when there is a sender and the destination is in another shard or accepts the payment |
| `MultiTransfer.SendAcceptedRefused` | builtInFunctions/multiMECTNFTTransfer.go:282-292 | a refusal changes no account and returns the refusal's error |
| `MultiTransfer.MultiSendSpec` | builtInFunctions/multiMECTNFTTransfer.go:253-342 | failed argument checks change nothing and return their error; success needs a sender and passed checks; the destination is never written through the caller's handle; the debit and credit per key are MultiSendMoves |
| `MultiTransfer.SendAcceptedShips` | builtInFunctions/multiMECTNFTTransfer.go:282-341 | once the checks and refusals pass, the outcome is the shipment of the parsed entries on the gas left after the per-entry charge |
| `MultiTransfer.MultiSendMoves` | builtInFunctions/multiMECTNFTTransfer.go:253-342 | a successful sender-shard call lowers the sender's record of each key by the total value its entries move under it, and raises a destination in this shard by exactly that total |
| `MultiTransfer.ProcessMultiTransferOnSenderShard` | builtInFunctions/multiMECTNFTTransfer.go:253-342 | the accounts and fresh output are those MultiSendSpec gives, so on success the sender loses and a local destination gains exactly the values MultiSendMoves names |
| `MultiTransfer.ReceiveOneSpec` | builtInFunctions/multiMECTNFTTransfer.go:188-231 | a fungible entry adds its quantity to the balance and leaves the system account alone; a non-fungible entry logs the quantity of the record `IncomingEntryRecord` reads from the value argument (a marshalled record when long, a bare quantity when short) |
| `MultiTransfer.ReceiveOne` | builtInFunctions/multiMECTNFTTransfer.go:188-231 | the destination, system account and result are those ReceiveOneSpec gives |
| `MultiTransfer.ReceiveFrom` | builtInFunctions/multiMECTNFTTransfer.go:188-231 | on success one log entry per remaining entry |
| `MultiTransfer.ReceiveAt` | builtInFunctions/multiMECTNFTTransfer.go:188-231 | one unfolding of the loop from an entry in range: same guarantee as ReceiveFrom |
| `MultiTransfer.ReceiveEntry` | builtInFunctions/multiMECTNFTTransfer.go:188-231 | one pass: an error stops where ReceiveFrom stops; success is one step of ReceiveFrom and appends exactly its log entry |
| `MultiTransfer.ReceiveAll` | builtInFunctions/multiMECTNFTTransfer.go:179-231 | the accounts end as ReceiveFrom says and, on success, the logs gain its entries; gas, return data and output accounts are untouched |
| `MultiTransfer.ReceiveLoop` | builtInFunctions/multiMECTNFTTransfer.go:188-231 | the while loop reaches the state ReceiveFrom prescribes, or stops at its first error |
| `MultiTransfer.ReceiveNext` | builtInFunctions/multiMECTNFTTransfer.go:188-231 | the loop invariant is carried from entry i to i + 1 or the loop stops where the specification does |
| `MultiTransfer.LandSpec` | builtInFunctions/multiMECTNFTTransfer.go:179-250 | the accounts end as the loop leaves them; without a contract call the output keeps all gas and has no transfers; with one, the recipient gets one call with all gas provided and the arguments after the entries |
| `MultiTransfer.Land` | builtInFunctions/multiMECTNFTTransfer.go:179-250 | the accounts and fresh output are those LandSpec gives |
| `MultiTransfer.MultiReceiveSpec` | builtInFunctions/multiMECTNFTTransfer.go:162-250 | a sender handle or a missing destination gives ErrInvalidRcvAddr; a zero or uncovered count gives ErrInvalidArguments and changes nothing |
| `MultiTransfer.ProcessMultiTransferOnDestShard` | builtInFunctions/multiMECTNFTTransfer.go:162-250 | the accounts and fresh output are those MultiReceiveSpec gives |
| `MultiTransfer.ReceiveRefusal` | builtInFunctions/multiMECTNFTTransfer.go:162-186 | nothing refuses the call exactly when there is no sender handle, there is a destination, the count is positive and covered, and the recipient accepts the payment |
| `MultiTransfer.ReceiveRefused` | builtInFunctions/multiMECTNFTTransfer.go:162-186 | a refusal changes nothing and returns its error |
| `MultiTransfer.ReceiveAccepted` | builtInFunctions/multiMECTNFTTransfer.go:170-250 | once nothing refuses, the destination half is LandSpec over the entries after the count |
| `MultiTransfer.MultiTransferSpec` | builtInFunctions/multiMECTNFTTransfer.go:143-160 | failed basic checks or fewer than four arguments change nothing and return the error; the debit and credit of a successful sender-shard call are MultiTransferMoves |
| `MultiTransfer.MultiTransferMoves` | builtInFunctions/multiMECTNFTTransfer.go:143-160 | a successful call whose caller is the recipient lowers the sender's record of each key and raises a destination in this shard by the total value the entries move under it |
| `MultiTransfer.ProcessMultiTransfer` | builtInFunctions/multiMECTNFTTransfer.go:143-251 | the accounts and fresh output are those MultiTransferSpec gives, so a successful sender-shard call moves exactly the values MultiTransferMoves names |
| `NftCreate.Royalties` | builtInFunctions/mectNFTCreate.go:171 | royalties are below 2^32 and equal the argument's value whenever it fits in 32 bits |
| `NftCreate.RoyaltiesTruncated` | builtInFunctions/mectNFTCreate.go:171-174 | the 32-bit cast is taken before the maximum is checked: 2^32 + 5 is read as royalties of 5 |
| `NftCreate.CreateChecks` | builtInFunctions/mectNFTCreate.go:152-189 | a create passes exactly when the holder has the create role, the gas covers the per-byte storage and the function cost, royalties are within the maximum, the quantity is positive, a quantity above one also has the add-quantity role, and (once active) the quantity argument is short enough |
| `NftCreate.CreateCost` | builtInFunctions/mectNFTCreate.go:161-166 | a create costs the function's own gas plus the per-byte price of every argument byte; the cost is the function's alone exactly when no byte is stored or storage is free |
| `NftCreate.NextNonce` | builtInFunctions/mectNFTCreate.go:157-191 | the minted nonce is the latest nonce plus one whenever that does not wrap |
| `NftCreate.CreateOnSpec` | builtInFunctions/mectNFTCreate.go:151-240 | once the checks pass, the create is the mint at the next nonce of `CreatedRecord`, the record built from the arguments with the URIs of `CreateURIs`, on the gas left after the cost |
| `NftCreate.MintSpec` | builtInFunctions/mectNFTCreate.go:206-240 | a successful mint leaves the gas given and returns the new nonce as its only return data |
| `NftCreate.CreateOnPassedChecks` | builtInFunctions/mectNFTCreate.go:152-189 | a create that succeeds has passed every check |
| `NftCreate.CreateOnRefused` | builtInFunctions/mectNFTCreate.go:152-189 | a create whose checks fail changes nothing and returns the check's error |
| `NftCreate.NFTCreateSpec` | builtInFunctions/mectNFTCreate.go:111-241 | failed input checks change nothing; success means the checks passed and there were at least 7 arguments (8 on the caller's behalf), and on the caller's behalf the contract address has the caller's length and is not the caller, with the sender untouched |
| `NftCreate.CreatedBy` | builtInFunctions/mectNFTCreate.go:132-149 | on the caller's behalf the sender is untouched and the contract's account holds the roles; otherwise the loaded account is untouched |
| `NftCreate.ProcessNFTCreate` | builtInFunctions/mectNFTCreate.go:111-241 | the accounts and the fresh output are those NFTCreateSpec gives |
| `NftCreate.CreateOn` | builtInFunctions/mectNFTCreate.go:151-240 | the holder, system account and fresh output are those CreateOnSpec gives |
| `NftCreate.MintCreated` | builtInFunctions/mectNFTCreate.go:191-240 | once the checks hold, the writes and output are those CreateOnSpec gives |
| `NftCreate.CheckCreate` | builtInFunctions/mectNFTCreate.go:152-189 | the checks made in order give exactly CreateChecks |
| `NftCreate.Mint` | builtInFunctions/mectNFTCreate.go:206-240 | the holder, system account and fresh output are those MintSpec gives |
| `NftCreate.MintSetsNonce` | builtInFunctions/mectNFTCreate.go:206-218 | a successful mint sets the latest nonce to the new nonce, stores the record's quantity there, and changes no other key |
| `NftCreate.MintLogCarriesRecord` | builtInFunctions/mectNFTCreate.go:233-238 | the mint's single log entry, from the caller, has four topics whose last unmarshals back to the record |
| `NftCreate.MintStartsLiquidity` | builtInFunctions/mectNFTCreate.go:206-213 | minting a first nonce with metadata kept on the system account starts its liquidity at the record's quantity |
| `NftCreate.CreateStartsLiquidity` | builtInFunctions/mectNFTCreate.go:177-213 | creating a first nonce with metadata kept on the system account starts its liquidity at the initial quantity |
| `NftCreate.CreateAdvancesNonce` | builtInFunctions/mectNFTCreate.go:157-230 | a successful create advances the latest nonce by one modulo 2^64, returns it, holds the initial quantity there, and changes no other key |
| `NftCreate.CreateLogCarriesRecord` | builtInFunctions/mectNFTCreate.go:192-238 | the logged record is non-fungible, has the initial quantity (at least one), the new nonce, the caller as creator, royalties within the maximum and the URIs given |
| `NftOps.QuantityChangeSpec` | builtInFunctions/mectNFTBurn.go:102-121 | a successful burn or add quantity keeps the gas left after the function cost, returns nothing, and logs exactly one entry naming the token, nonce, amount and caller (likewise mectNFTAddQuantity.go:122-141) |
| `NftOps.QuantityChangeTail` | builtInFunctions/mectNFTBurn.go:109-121 | after the save the holder's data is left as saved; the output is the single log entry with the gas left after the function cost |
| `NftOps.ChangeQuantity` | builtInFunctions/mectNFTBurn.go:102-121 | the holder, system account and fresh output are those QuantityChangeSpec gives |
| `NftOps.FinishQuantityChange` | builtInFunctions/mectNFTBurn.go:109-121 | the system account and fresh output are those QuantityChangeTail gives |
| `NftOps.IsAllowedToBurnNFT` | builtInFunctions/mectNFTBurn.go:124-132 | burning is allowed exactly when the token is burn-for-all or the account has the NFT burn role; otherwise the role check's error is returned |
| `NftOps.NFTBurnSpec` | builtInFunctions/mectNFTBurn.go:67-122 | failed input checks change nothing; a successful burn had at least three arguments, was allowed, had an account, a nonzero nonce and a quantity no larger than the one held |
| `NftOps.ProcessNFTBurn` | builtInFunctions/mectNFTBurn.go:67-122 | the accounts and the fresh output are those NFTBurnSpec gives |
| `NftOps.NFTAddQuantitySpec` | builtInFunctions/mectNFTAddQuantity.go:88-142 | failed input checks change nothing; a successful add had at least three arguments, the add-quantity role, a nonzero nonce and (once active) a short enough quantity argument |
| `NftOps.ProcessNFTAddQuantity` | builtInFunctions/mectNFTAddQuantity.go:88-142 | the accounts and the fresh output are those NFTAddQuantitySpec gives |
| `NftOps.QuantityChangeMoves` | builtInFunctions/mectNFTBurn.go:102-107 | the holder's stored quantity moves by exactly the amount, down for a burn and up for an add, and no other key changes |
| `NftOps.QuantityChangeMovesLiquidity` | builtInFunctions/mectNFTBurn.go:109-112 | with tracked liquidity, the system account's liquidity moves by the same amount (likewise mectNFTAddQuantity.go:129-132) |
| `NftOps.NFTBurnTakesQuantity` | builtInFunctions/mectNFTBurn.go:97-112 | after a successful burn the holder has the quantity less the amount burnt, nothing else changes, and tracked liquidity falls by the same amount |
| `NftOps.NFTAddQuantityAdds` | builtInFunctions/mectNFTAddQuantity.go:122-132 | after a successful add the holder has the quantity plus the amount, nothing else changes, and tracked liquidity grows by the same amount |
| `NftOps.NFTBurnRefusesExcess` | builtInFunctions/mectNFTBurn.go:97-100 | burning more than is held fails with ErrInvalidNFTQuantity before any write |
| `NftOps.TotalLengthConcat` | builtInFunctions/mectNFTAddUri.go:138-144 | the summed length of a concatenation is the sum of the summed lengths |
| `NftOps.SumLengths` | builtInFunctions/mectNFTAddUri.go:139-142 | the summing loop computes the total length of the arguments |
| `NftOps.MetaDataEditChecks` | builtInFunctions/mectNFTAddUri.go:92-114 | the edit passes exactly when the input checks pass, the argument count fits (at least three for add URIs, exactly three for update attributes, updateNFTAttributes.go:96), the role is held, gas covers the function and storage cost and the nonce is nonzero; success needs an account |
| `NftOps.EditStoreCost` | builtInFunctions/mectNFTAddUri.go:138-144 | the storage price covers only the arguments after token and nonce: nothing for two arguments, and for an attributes update exactly the attributes' length times the per-byte price (updateNFTAttributes.go:105) |
| `NftOps.MetaDataEditSpec` | builtInFunctions/mectNFTAddUri.go:85-136 | failed checks return their error with no write; a success keeps the gas left after the function and storage cost (likewise updateNFTAttributes.go:85-135) |
| `NftOps.EditRecordSpec` | builtInFunctions/mectNFTAddUri.go:115-135 | a successful read, edit and save keeps the gas given |
| `NftOps.ProcessMetaDataEdit` | builtInFunctions/mectNFTAddUri.go:85-136 | an error leaves both accounts unchanged; a success writes the accounts and fresh output MetaDataEditSpec gives |
| `NftOps.CheckMetaDataEdit` | builtInFunctions/mectNFTAddUri.go:92-114 | the checks made in order give exactly MetaDataEditChecks |
| `NftOps.EditRecord` | builtInFunctions/mectNFTAddUri.go:115-135 | an error leaves both accounts unchanged; a success writes what EditRecordSpec gives |
| `NftOps.MetaDataEditReadsBack` | builtInFunctions/mectNFTAddUri.go:115-125 | after a successful edit the record reads back with the metadata `Edited`: the URIs appended, or the attributes replaced (updateNFTAttributes.go:120), and the quantity, properties and other metadata kept |
| `NftOps.AddURIsKeepsExisting` | builtInFunctions/mectNFTAddUri.go:120 | adding URIs only appends: the earlier URIs keep their places and the list grows by the number of URIs given |
| `CreateRoleTransfer.AddCreateRoleToAccount` | builtInFunctions/mectNFTCreateRoleTransfer.go:179-196 | a failed read of the roles changes nothing; otherwise the account's data becomes `AddCreateRoleSpec`: the roles with the create role appended unless already held |
| `CreateRoleTransfer.DeleteCreateRoleFromAccount` | builtInFunctions/mectNFTCreateRoleTransfer.go:166-177 | a failed read changes nothing; otherwise, as `DeleteCreateRoleSpec` says, the first create role is removed and the roles saved |
| `CreateRoleTransfer.Receive` | builtInFunctions/mectNFTCreateRoleTransfer.go:228-237 | the latest nonce is saved, then the create role is added; data and status are what Received gives |
| `CreateRoleTransfer.CurrentOwnerSpec` | builtInFunctions/mectNFTCreateRoleTransfer.go:87-164 | other than two arguments, or a second argument not of an address's length, is ErrInvalidArguments with nothing written; a destination in another shard is never written |
| `CreateRoleTransfer.HandedOver` | builtInFunctions/mectNFTCreateRoleTransfer.go:116-163 | the owner's data stays as left once its role is gone; a destination in another shard is never written |
| `CreateRoleTransfer.NextOwnerSpec` | builtInFunctions/mectNFTCreateRoleTransfer.go:216-243 | other than two arguments is ErrInvalidArguments with nothing written |
| `CreateRoleTransfer.CreateRoleTransferSpec` | builtInFunctions/mectNFTCreateRoleTransfer.go:53-85 | failed basic checks or a sender account give their error with nothing written; success needs no sender and an account called on; only the system smart contract as caller can write the destination |
| `CreateRoleTransfer.ProcessNFTCreateRoleTransfer` | builtInFunctions/mectNFTCreateRoleTransfer.go:53-85 | the accounts and the fresh output are those CreateRoleTransferSpec gives |
| `CreateRoleTransfer.AtCurrentOwner` | builtInFunctions/mectNFTCreateRoleTransfer.go:87-164 | the accounts and output are those CurrentOwnerSpec gives |
| `CreateRoleTransfer.HandOver` | builtInFunctions/mectNFTCreateRoleTransfer.go:116-163 | the destination and output are those HandedOver gives |
| `CreateRoleTransfer.AtNextOwner` | builtInFunctions/mectNFTCreateRoleTransfer.go:216-243 | the account and output are those NextOwnerSpec gives |
| `CreateRoleTransfer.AddCreateRoleGrants` | builtInFunctions/mectNFTCreateRoleTransfer.go:179-196 | after adding, the account is allowed to create |
| `CreateRoleTransfer.AddCreateRoleIdempotent` | builtInFunctions/mectNFTCreateRoleTransfer.go:188-194 | adding the create role twice is adding it once |
| `CreateRoleTransfer.AddCreateRoleKeepsRoles` | builtInFunctions/mectNFTCreateRoleTransfer.go:188-194 | every role held stays, in order; the create role is at most appended, and only when absent |
| `CreateRoleTransfer.CurrentOwnerGivesUp` | builtInFunctions/mectNFTCreateRoleTransfer.go:99-114 | after the current-owner leg the latest nonce is zero, one create role fewer is held, and no other key changes |
| `CreateRoleTransfer.GivesUpCreateRole` | builtInFunctions/mectNFTCreateRoleTransfer.go:105-114 | clearing the nonce then deleting the role once leaves nonce zero, one create role fewer and every other key as it was |
| `CreateRoleTransfer.ReceivedGrants` | builtInFunctions/mectNFTCreateRoleTransfer.go:228-237 | receiving sets the latest nonce to the one given and lets the account create |
| `CreateRoleTransfer.SameShardTakesOver` | builtInFunctions/mectNFTCreateRoleTransfer.go:116-147 | in the same shard the destination takes over the owner's latest nonce and may create; two log entries name the old owner with false and the new one with true |
| `CreateRoleTransfer.CurrentOwnerSends` | builtInFunctions/mectNFTCreateRoleTransfer.go:149-163 | the current-owner leg sends exactly one zero-value call to the destination carrying the token and the owner's latest nonce, with no gas |
| `CreateRoleTransfer.HandoverDataRoundTrip` | builtInFunctions/mectNFTCreateRoleTransfer.go:157-158 | the call data splits at '@' into the function name, the hex token and the hex nonce, which decode back |
| `CreateRoleTransfer.NextOwnerRestoresNonce` | builtInFunctions/mectNFTCreateRoleTransfer.go:225-237 | the next-owner leg on the forwarded arguments restores the old owner's latest nonce and lets the receiver create |
| `DeleteMetadata.IntervalSpec` | builtInFunctions/mectDeleteMetadata.go:175-198 | the interval is refused exactly when it ends before it starts (ErrInvalidArguments) or starts at nonce 0 (ErrInvalidNonce) |
| `DeleteMetadata.DeleteMetadataForInterval` | builtInFunctions/mectDeleteMetadata.go:175-198 | a refused interval changes nothing; otherwise the data is `ClearedInterval`, the interval cleared nonce by nonce |
| `DeleteMetadata.DeleteMetadataForListIntervals` | builtInFunctions/mectDeleteMetadata.go:151-173 | the pair loop leaves the data and status IntervalsFrom gives |
| `DeleteMetadata.IntervalsFrom` | builtInFunctions/mectDeleteMetadata.go:151-173 | the pair loop stops only with a miscounted argument list or a refused interval (end before start, or start at nonce 0) |
| `DeleteMetadata.IntendedStep` | builtInFunctions/mectDeleteMetadata.go:122-141 | a round that goes on moves the index strictly forward |
| `DeleteMetadata.DeleteMetadataList` | builtInFunctions/mectDeleteMetadata.go:111-149 | the outer loop leaves the data and status DeleteFrom gives |
| `DeleteMetadata.DeleteFrom` | builtInFunctions/mectDeleteMetadata.go:111-149 | the outer loop stops only with an invalid token, a miscounted argument list or a refused interval; every round clears the intervals of its token, and what it clears the lemmas below state |
| `DeleteMetadata.AddEntry` | builtInFunctions/mectDeleteMetadata.go:211-253 | in source order: nonce 0 is ErrInvalidNonce, an invalid token ErrInvalidTokenID, undecodable metadata ErrUnmarshal, metadata naming another nonce ErrInvalidMetadata, an unreadable mirror its error and a mirror that already has metadata ErrTokenHasValidMetadata; it succeeds exactly when none of these applies, and then the nonce's mirror (a new non-fungible of value 0 when there was none) carries the metadata with no other key changed |
| `DeleteMetadata.AddMetadataList` | builtInFunctions/mectDeleteMetadata.go:211-254 | the loop leaves the data and status AddEach gives |
| `DeleteMetadata.AddOne` | builtInFunctions/mectDeleteMetadata.go:212-253 | a refused addition changes nothing and returns AddEntry's named error; otherwise the data is the one AddEntry gives |
| `DeleteMetadata.DeleteMetadataSpec` | builtInFunctions/mectDeleteMetadata.go:76-108 | a nil value panics; a nonzero value is ErrBuiltInFunctionCalledWithValue, a caller other than the allowed address ErrAddressIsNotAllowed and a recipient other than the caller ErrInvalidRcvAddr; past those, deleting with fewer than four arguments or adding with a count that is not a positive multiple of three is ErrInvalidNumOfArgs (mectDeleteMetadata.go:113, :202) |
| `DeleteMetadata.ProcessDeleteMetadata` | builtInFunctions/mectDeleteMetadata.go:76-108 | an error leaves the system account unchanged (the loaded copy is not saved) and returns DeleteMetadataSpec's named error; success saves the data DeleteMetadataSpec gives and returns an empty output |
| `DeleteMetadata.ClearedIntervalExactly` | builtInFunctions/mectDeleteMetadata.go:188-195 | clearing an interval (`ClearedInterval`) removes exactly the keys of its nonces: nothing is added or changed, and every key removed belongs to the interval |
| `DeleteMetadata.IntervalsFromOnlyRemove` | builtInFunctions/mectDeleteMetadata.go:158-170 | the pair loop only removes keys, whatever its outcome |
| `DeleteMetadata.DeleteOnlyRemoves` | builtInFunctions/mectDeleteMetadata.go:122-141 | deleting, even when it fails part way, never adds or changes a key |
| `DeleteMetadata.OneIntervalDeleted` | builtInFunctions/mectDeleteMetadata.go:111-198 | one token with one interval succeeds exactly when the token is valid and 0 < start <= end, and then clears exactly that interval |
| `DeleteMetadata.OneIntervalArgs` | builtInFunctions/mectDeleteMetadata.go:111-198 | the same for any four arguments announcing one interval |
| `DeleteMetadata.IndexStepWrapsAsWritten` | builtInFunctions/mectDeleteMetadata.go:140 | as written, a valid token announcing 2^63 - 1 intervals leaves the data as it was and restarts the loop at the same index |
| `DeleteMetadata.RoundWrapsAsWritten` | builtInFunctions/mectDeleteMetadata.go:140 | the same over any four arguments with a valid token and that count |
| `DeleteMetadata.StepSucceeds` | builtInFunctions/mectDeleteMetadata.go:135-140 | a round whose pairs are all cleared goes on at the index after them |
| `DeleteMetadata.StepFails` | builtInFunctions/mectDeleteMetadata.go:135-138 | a round in which a pair is refused stops with that outcome |
| `DeleteMetadata.IndexStepCorrected` | builtInFunctions/mectDeleteMetadata.go:158-161 | with the intended arithmetic, announcing more pairs than follow stops with ErrInvalidNumOfArgs, 2^63 - 1 included |
| `DeleteMetadata.FirstRoundStopsList` | builtInFunctions/mectDeleteMetadata.go:122-141 | a list whose first round announces more pairs than follow ends with ErrInvalidNumOfArgs |
| `DeleteMetadata.PairsRunOut` | builtInFunctions/mectDeleteMetadata.go:158-161 | the pair loop past the last argument stops with ErrInvalidNumOfArgs |
| `DeleteMetadata.StepAgreesWithoutWrap` | builtInFunctions/mectDeleteMetadata.go:122-141 | wherever the uint64 sum does not wrap, the round as written is the intended one |
| `DeleteMetadata.NonceLoopNeverEndsAsWritten` | builtInFunctions/mectDeleteMetadata.go:188 | as written, an interval ending at 2^64 - 1 runs at least any number of rounds |
| `DeleteMetadata.NonceLoopWrapsToTokenKey` | builtInFunctions/mectDeleteMetadata.go:188-191 | after the largest nonce the loop as written goes on at nonce 0, whose key is the token key itself |
| `DeleteMetadata.LastIntervalCorrected` | builtInFunctions/mectDeleteMetadata.go:175-198 | the corrected loop clears an interval ending at 2^64 - 1 and stops, leaving the token key alone |
| `DeleteMetadata.AddEachKeepsInstalled` | builtInFunctions/mectDeleteMetadata.go:239-241 | metadata once installed stays: a later addition to the same nonce is refused, not applied |
| `DeleteMetadata.AddEachInstallsAll` | builtInFunctions/mectDeleteMetadata.go:211-254 | a successful addition installs every triple's metadata on its nonce's mirror |
| `DeleteMetadata.AddNotRepeatable` | builtInFunctions/mectDeleteMetadata.go:239-241 | once the additions succeeded, the same call is refused with ErrTokenHasValidMetadata and changes nothing |
| `TransferParser.CallAfterTail` | parsers/mectTransferParser.go:142-147 | the function and call arguments read after the transfers are exactly the rest of the arguments, and a call written there reads back as itself |
| `TransferParser.ParseSingleMECTTransfer` | parsers/mectTransferParser.go:59-83 | fewer than the minimum arguments is exactly the ErrNotEnoughArguments case; otherwise one fungible transfer of token args[0] with value args[1], nonce 0, to the receiver given |
| `TransferParser.ParseSingleNFTTransfer` | parsers/mectTransferParser.go:85-113 | fewer than the minimum arguments is exactly the ErrNotEnoughArguments case; otherwise one non-fungible transfer of (args[0], nonce args[1] in 64 bits, value args[2]); an account sending to itself names the receiver in args[3] |
| `TransferParser.NewTransfer` | parsers/mectTransferParser.go:162-187 | the entry keeps the token name and the 64-bit nonce and is fungible exactly when the nonce is zero; at the sender, for nonce zero or for a short value argument, the value is the argument read as a number |
| `TransferParser.ParseEntries` | parsers/mectTransferParser.go:150-157 | the loop returns exactly what EntriesFrom gives |
| `TransferParser.ParseMultiNFTTransfer` | parsers/mectTransferParser.go:115-160 | fewer than four arguments, or a count without room for its triples, is ErrNotEnoughArguments; a success names args[0] as receiver exactly when it is address-long and too large for a count, and reads the call after the triples |
| `TransferParser.ParseMECTTransfers` | parsers/mectTransferParser.go:41-57 | the layout is chosen by the function name: single, NFT, multi, or ErrNotMECTTransferInput for any other |
| `TransferParser.EntriesArgs` | parsers/mectTransferParser.go:151-157 | the written triples are three arguments per entry |
| `TransferParser.EntriesArgsAt` | parsers/mectTransferParser.go:152 | entry j sits at 3*j with its name, nonce and value |
| `TransferParser.EntryAt` | parsers/mectTransferParser.go:152-153 | entry i of triples written from a start index sits at start + 3*i |
| `TransferParser.EntriesRoundTrip` | parsers/mectTransferParser.go:151-157 | reading back the written triples gives the transfers written |
| `TransferParser.MultiTransferRoundTrip` | parsers/mectTransferParser.go:115-160 | a multi-transfer written with at least one encodable entry reads back as those entries, the receiver it names, and the call |
| `TransferParser.MultiTransferLayout` | parsers/mectTransferParser.go:125-147 | in a written multi-transfer the parser finds the receiver, the count, room for the triples, the triples and the call where they were written |
| `TransferParser.SingleTransferRoundTrip` | parsers/mectTransferParser.go:59-83 | a fungible transfer written as (token, value, call) reads back as itself |
| `TransferParser.NFTTransferRoundTrip` | parsers/mectTransferParser.go:85-113 | an NFT transfer written as (token, nonce, value, receiver, call) reads back as itself, the receiver argument counting only for a self-send |
| `TransferParser.EntriesShape` | parsers/mectTransferParser.go:150-157 | a parsed multi-transfer has as many entries as its count, each named by its triple, fungible exactly when its nonce is zero |
| `DataField.NewOperationDataFieldParser` | parsers/dataField/parser.go:43-67 | the parser is built exactly when the address length is non-zero; a zero length gives the invalid-address-length error |
| `DataField.IsBuiltInFunction` | parsers/dataField/utils.go:57-65 | the scan reports true exactly when the name is in the list |
| `DataField.IsASCIIString` | parsers/dataField/utils.go:113-121 | true exactly when no byte is above 127 |
| `DataField.IsEmptyAddrMeans` | parsers/dataField/utils.go:107-111 | an address is empty exactly when it has the address length and every byte is zero |
| `DataField.EncodeBytesSlice` | parsers/dataField/utils.go:68-79 | no encoder gives no slice; otherwise one encoded string per input, in order |
| `DataField.HexIsASCII` | parsers/dataField/utils.go:86-88 | lower-case hex text is always ASCII |
| `DataField.ComputeTokenIdentifier` | parsers/dataField/utils.go:81-89 | empty exactly for an empty token or nonce 0; otherwise starts with the token and a dash; ASCII for an ASCII token |
| `DataField.TokenIdentifierRoundTrip` | parsers/dataField/utils.go:81-89 | the identifier splits back into the token and hex digits that decode to the nonce |
| `DataField.TokenIdentifierInjective` | parsers/dataField/utils.go:81-89 | two non-zero nonces of one token give the same identifier only when equal |
| `DataField.ValidTokenIsASCII` | parsers/dataField/utils.go:113-121 | every valid token identifier passes the ASCII test |
| `DataField.ParseBlockingOperationMECT` | parsers/dataField/parser.go:182-202 | at most one token, reported exactly when there is an argument whose token part is ASCII; never a value, receiver or call |
| `DataField.BlockingReportsIdentifier` | parsers/dataField/parser.go:191-200 | freezing identifier-plus-nonce reports the identifier for nonce 0 and identifier-hexnonce otherwise |
| `DataField.ParseQuantityOperationMECT` | parsers/dataField/parser.go:204-222 | fewer than two arguments or a non-ASCII token give the operation alone; otherwise the token and the decimal of the big-endian quantity |
| `DataField.ParseQuantityOperationNFT` | parsers/dataField/parser.go:224-251 | fewer than three arguments or a non-ASCII token give the operation alone; a create reports the token with `args[1]`, others token-hexnonce with `args[2]` |
| `DataField.NFTQuantityRoundTrip` | parsers/dataField/parser.go:238-248 | a burn or add-quantity of (token, nonce, quantity) reports token-hexnonce and exactly that quantity |
| `DataField.ExtractMECTData` | parsers/dataField/parseSingleMECTTransfer.go:29-40 | the response names the operation; the transfers are present exactly when the transfer parser accepts the arguments, and are its result |
| `DataField.ParseSingleMECTTransfer` | parsers/dataField/parseSingleMECTTransfer.go:8-27 | at most one ASCII token with its value, no receivers; a called function only for a smart-contract receiver and an ASCII name |
| `DataField.SingleTransferTooShort` | parsers/dataField/parseSingleMECTTransfer.go:8-12 | too few arguments give the operation alone |
| `DataField.SingleTransferReported` | parsers/dataField/parseSingleMECTTransfer.go:14-26 | (token, value, call) reports that token, that value, and the call exactly when the receiver is a contract and the name ASCII |
| `DataField.EmptyValueIsZero` | parsers/dataField/parseSingleMECTTransfer.go:24 | an empty value argument is reported as "0" |
| `DataField.NonASCIITokenNotReported` | parsers/dataField/parseSingleMECTTransfer.go:18-20 | a non-ASCII token name reports no token and no value |
| `DataField.ParseSingleMECTNFTTransfer` | parsers/dataField/parseSingleNFTTransfer.go:9-38 | a refused parse gives the operation alone; the call is kept only when the parsed receiver is a smart contract; no transfer or a non-ASCII token name gives no token, value or receiver; otherwise the one token is token-hexnonce at the parsed receiver when an account sends to itself and at the transaction's receiver else; tokens, values, receivers and shards stay in step, each shard the receiver's own, names ASCII |
| `DataField.NFTTransferReported` | parsers/dataField/parseSingleNFTTransfer.go:19-35 | (token, nonce, value, to, call) reports token-hexnonce, the value, and `to` as receiver exactly when an account sends to itself |
| `DataField.ReportedToken` | parsers/dataField/parseMultiMECTNFTTransfer.go:22-25 | a nonce-0 entry keeps its plain name; an ASCII name stays ASCII |
| `DataField.ReportEntries` | parsers/dataField/parseMultiMECTNFTTransfer.go:15-31 | the loop's result equals `ReportedEntries`, the entry-by-entry specification whose shape `ReportedEntriesShape` states |
| `DataField.ReportedEntriesShape` | parsers/dataField/parseMultiMECTNFTTransfer.go:15-31 | one non-ASCII name drops everything but the operation; otherwise one token, value, receiver and shard per entry, in order |
| `DataField.ParseMultiMECTNFTTransfer` | parsers/dataField/parseMultiMECTNFTTransfer.go:5-34 | the operation is the multi-transfer and the response is not relayed |
| `DataField.MultiTransferShape` | parsers/dataField/parseMultiMECTNFTTransfer.go:5-34 | a refused parse or a non-ASCII name gives the operation alone; otherwise every entry at the parsed receiver and its shard, and the call for a contract receiver |
| `DataField.MultiTransferReported` | parsers/dataField/parseMultiMECTNFTTransfer.go:5-34 | written entries come back one for one with their names, nonces and values, at the receiver they were sent to |
| `DataField.OtherCall` | parsers/dataField/parser.go:110-119 | the name is the operation exactly when it is a built-in (else "transfer"); the call is kept exactly for a non-empty ASCII name sent to a contract |
| `DataField.ExtractInnerTx` | parsers/dataField/parser.go:161-180 | relayed decodes the first argument; relayed-v2 succeeds exactly with four arguments, sending `args[2]` to `args[0]` from the receiver |
| `DataField.ParseCall` | parsers/dataField/parser.go:90-119 | every receiver has its own shard and every reported name is ASCII |
| `DataField.ParseRelayed` | parsers/dataField/parser.go:122-159 | the response is always marked relayed |
| `DataField.Parse` | parsers/dataField/parser.go:74-120 | the dispatch, in order: non-empty data to the all-zero address is a deployment, data the argument parser refuses a plain transfer, a relayed call is unwrapped (or, inside a relayed one, reported only as relayed), and every other call goes to its parser; a response is marked relayed only for a relayed call, and inside a relayed call it is then the relayed flag alone |
| `DataField.ParseDataField` | parsers/dataField/parser.go:70-72 | the entry point unwraps relayed calls: the response is marked relayed only for a relayed call, lists every receiver with its own shard and names only ASCII tokens and functions |
| `DataField.DeployClassified` | parsers/dataField/parser.go:79-83 | non-empty data sent to the all-zero address is a deployment |
| `DataField.UnparsableIsTransfer` | parsers/dataField/parser.go:85-88 | data the argument parser refuses is a plain transfer |
| `DataField.OtherCallClassified` | parsers/dataField/parser.go:110-119 | any other call: its name as operation only for a built-in, as function only for a contract receiver and an ASCII name |
| `DataField.RelayedIgnoredInside` | parsers/dataField/parser.go:103-106 | a relayed call inside a relayed one reports only the relayed flag |
| `DataField.RelayedOnlyFlag` | parsers/dataField/parser.go:122-141 | no arguments, an unreadable inner transaction or a relayed inner call report only the relayed flag |
| `DataField.RelayedV2Unwrapped` | parsers/dataField/parser.go:143-158 | a relayed-v2 reports its inner call, relayed, at `args[0]` and its shard unless the inner call is an NFT or multi transfer |
| `DataField.ParseWellFormed` | parsers/dataField/parser.go:74-120 | for every data field, receivers and shards are in step, each shard the receiver's own, and all names ASCII |
| `Store.Saved` | builtInFunctions/mectDataStorage.go:319-343 | saving nil removes the key, any other value is stored under the key, and every other key is untouched |
| `Store.Account.SaveKeyValue` | builtInFunctions/mectDataStorage.go:319-343 | the account's data becomes `Saved` of the old data: nil deletes, anything else overwrites, nothing else changes |
| `Encoding.Uint64Of` | builtInFunctions/mectNFTCreate.go:268 | `SetBytes(..).Uint64()` keeps the low 64 bits: always a uint64, and the exact value when it fits |
| `Encoding.FromBEToBE` | builtInFunctions/mectNFTCreate.go:259-274 | a nonce saved as minimal big-endian bytes reads back as the same nonce |
| `Encoding.ToBEFromBE` | builtInFunctions/mectNFTCreate.go:276-278 | minimal big-endian bytes re-encode to themselves |
| `Encoding.ToBEInjective` | builtInFunctions/mectNFTCreate.go:276-278 | two nonces have the same key suffix exactly when they are equal |
| `Encoding.UnHexHex` | parsers/dataField/utils.go:86-88 | lower-case hex decodes back to the bytes it encodes |
| `Encoding.DecimalRoundTrip` | parsers/dataField/parseSingleMECTTransfer.go:24 | the decimal text of a big integer reads back as that integer |
| `Encoding.JoinSplit` | builtInFunctions/logsAndEvents.go:46-59 | the pieces `bytes.Split` returns, joined with the separator, give back the input |
| `Encoding.SplitJoin` | builtInFunctions/logsAndEvents.go:46-59 | separator-free pieces joined and split again come back unchanged |

## Left out

- FreezeWipe.FreezeWipeSpec: uses the corrected token/nonce split `ExtractTokenAndNonce`, not the `bytes.Split` of logsAndEvents.go:46-59. A nonce whose bytes contain '-' (0x2D) is recovered here, whereas the source loses it (see Findings).
- FreezeWipe.ProcessFreezeWipe: inherits the corrected split of FreezeWipeSpec.
- DataField.ParseBlockingOperationMECT: uses the same corrected split in place of parsers/dataField/utils.go:91-105.
- DeleteMetadata.DeleteMetadataForInterval: counts the nonce without bound, so an interval that ends at 2^64 - 1 terminates. As written, the source loops forever there (see Findings).
- DeleteMetadata.DeleteFrom: steps the outer index without uint64 wrap-around. As written, the source wraps for a count of 2^63 - 1 (see Findings).
- DeleteMetadata.DeleteMetadataList: inherits the corrected outer step of DeleteFrom.
- MultiTransfer.SendFromMoves: states the destination's credit only where its stored quantity of the key is not negative. The source's big-integer records never hold a negative quantity, but the model's `int` field does not exclude one.
- MultiTransfer.MultiSendMoves: the same condition on the destination's credit.
- MultiTransfer.MultiTransferMoves: the same condition on the destination's credit.
- MultiTransfer.SendChecks: checks the argument count of the sender leg with the unbounded `EnoughArguments`. As written, `3*count+start` wraps in uint64 and a huge count then makes `make(..., count)` panic. The model reports the argument error instead (see Findings).
- MultiTransfer.MultiReceiveSpec: uses the same corrected guard on the destination leg.
- TransferParser.ParseMultiNFTTransfer: uses the same corrected guard in place of mectTransferParser.go:137-140.
- DataStorage.MultiMetaSpec: uses the same corrected guard in place of mectDataStorage.go:586.
- NftCreate.CreateCost: the storage gas (total argument length times the per-byte cost) is computed without uint64 wrap-around. The size of a transaction bounds those lengths far below 2^64.
- NftOps.EditStoreCost: the same for the URI and attribute storage cost.
- NftOps.MetaDataEditChecks: compares the gas against that unbounded storage cost.
- ArgChecks.CheckBasicMECTArguments: a nil input record is not expressible. A nil call value is modelled as an absent value.
- MectTransfer.ProcessMECTTransfer: requires two distinct account objects when a sender is present. The model does not capture a VM that passes one account object as both sender and destination.
- Saving NFT metadata to the system account from outside the transfer functions (mectDataStorage.go:521-576, `SaveNFTMetaDataToSystemAccount` and `addMetaDataToSystemAccountFromNFTTransfer`) is not modelled.
- The marshaller's byte format is not modelled. It is a pair of functions in `Env` whose decode undoes its encode.
- The JSON decoding of a relayed-v1 inner transaction is a function in the parser configuration.
- The call-argument parser, the shard coordinator, the smart-contract and system-account address tests, the payable checker and `computeGasRemaining` are uninterpreted functions in `Env` or in the parser configuration.
- Locks, mutexes and the epoch subscriptions are not modelled. Each epoch flag is a boolean field of `Config`.
- `SaveAccount`, `Commit` and the account trie are not modelled. A write to an account's map is visible at once.
- Function registration in builtInFunctions/creator.go and the gas-map decoding are not part of this model.
- The constructors' nil checks for their collaborators are not modelled; only the address-length check of the data-field parser is.
- The core constants defined outside the repository take assumed values: the maximum royalty 10000, the long-value threshold 32 bytes and the issue/mint length 100 bytes. The storage-key prefixes are named constants with placeholder bytes.
- Go runtime panics (a nil metadata dereference, an empty address) are the error `ErrRuntimePanic`.

## Findings

| source | as written | input that shows it | evidently intended | confidence | as-written member | corrected member |
|---|---|---|---|---|---|---|
| builtInFunctions/mectDeleteMetadata.go:188 | `for nonce := start; nonce <= end; nonce++` in uint64 | an interval whose end is 2^64 - 1: after the last nonce the counter wraps to 0 and the loop never ends (it clears nonce 0, the token key itself) | clear every nonce from start to end, then stop | not executed | DeleteMetadata.NonceLoopNeverEndsAsWritten | DeleteMetadata.LastIntervalCorrected |
| builtInFunctions/mectDeleteMetadata.go:140 | `i += numIntervals*2 + 2` (and the pair end at :158) in uint64 | arguments [valid token, 2^63 - 1, x, y]: the sum wraps back to 0 and the same round starts again | stop with ErrInvalidNumOfArgs because fewer pairs follow than announced | not executed | DeleteMetadata.IndexStepWrapsAsWritten | DeleteMetadata.IndexStepCorrected |
| builtInFunctions/multiMECTNFTTransfer.go:174 | `numOfTransfers*3 + 1` (and `+ 2` at :272, and mectTransferParser.go:137) computed in uint64 | count (2^65 + 4) / 3 with five arguments on the destination leg, or six on the sender leg: the guard passes, then `make` with that count at :180, :301 and mectTransferParser.go:150 is a makeslice runtime panic | refuse with the argument error | not executed | ArgChecks.CountGuardWraps | ArgChecks.EntryInRange |
| builtInFunctions/logsAndEvents.go:46-59 | split on every '-' with `bytes.Split`, then cut the second piece (also parsers/dataField/utils.go:91-105) | "ABC-123456" followed by nonce 45, the single byte '-': the result is the whole argument and nonce 0 | identifier "ABC-123456" and nonce 45 | not executed | LogsAndEvents.ExtractAsWrittenLosesDashNonce | LogsAndEvents.ExtractTokenAndNonceRoundTrip |
