/**
 * Built-in function names and role names. The values are defined in the core
 * library; those below stand in for them, following its naming scheme, except
 * the four that common.go declares, which are exact.
 */
module Names {

  const BuiltInFunctionClaimDeveloperRewards := "ClaimDeveloperRewards"
  const BuiltInFunctionChangeOwnerAddress := "ChangeOwnerAddress"
  const BuiltInFunctionSetUserName := "SetUserName"
  const BuiltInFunctionSaveKeyValue := "SaveKeyValue"
  const BuiltInFunctionMECTTransfer := "MECTTransfer"
  const BuiltInFunctionMECTBurn := "MECTBurn"
  const BuiltInFunctionMECTFreeze := "MECTFreeze"
  const BuiltInFunctionMECTUnFreeze := "MECTUnFreeze"
  const BuiltInFunctionMECTWipe := "MECTWipe"
  const BuiltInFunctionMECTPause := "MECTPause"
  const BuiltInFunctionMECTUnPause := "MECTUnPause"
  const BuiltInFunctionSetMECTRole := "MECTSetRole"
  const BuiltInFunctionUnSetMECTRole := "MECTUnSetRole"
  const BuiltInFunctionMECTSetLimitedTransfer := "MECTSetLimitedTransfer"
  const BuiltInFunctionMECTUnSetLimitedTransfer := "MECTUnSetLimitedTransfer"
  const BuiltInFunctionMECTLocalMint := "MECTLocalMint"
  const BuiltInFunctionMECTLocalBurn := "MECTLocalBurn"
  const BuiltInFunctionMECTNFTTransfer := "MECTNFTTransfer"
  const BuiltInFunctionMECTNFTCreate := "MECTNFTCreate"
  const BuiltInFunctionMECTNFTAddQuantity := "MECTNFTAddQuantity"
  const BuiltInFunctionMECTNFTCreateRoleTransfer := "MECTNFTCreateRoleTransfer"
  const BuiltInFunctionMECTNFTBurn := "MECTNFTBurn"
  const BuiltInFunctionMECTNFTAddURI := "MECTNFTAddURI"
  const BuiltInFunctionMECTNFTUpdateAttributes := "MECTNFTUpdateAttributes"
  const BuiltInFunctionMultiMECTNFTTransfer := "MultiMECTNFTTransfer"
  const RelayedTransaction := "relayedTx"
  const RelayedTransactionV2 := "relayedTxV2"

  /** Declared in common.go. */
  const BuiltInFunctionMECTSetBurnRoleForAll := "MECTSetBurnRoleForAll"
  const BuiltInFunctionMECTUnSetBurnRoleForAll := "MECTUnSetBurnRoleForAll"
  const BuiltInFunctionMECTTransferRoleAddAddress := "MECTTransferRoleAddAddress"
  const BuiltInFunctionMECTTransferRoleDeleteAddress := "MECTTransferRoleDeleteAddress"

  const MECTRoleLocalMint := "MECTRoleLocalMint"
  const MECTRoleLocalBurn := "MECTRoleLocalBurn"
  const MECTRoleNFTCreate := "MECTRoleNFTCreate"
  const MECTRoleNFTCreateMultiShard := "MECTRoleNFTCreateMultiShard"
  const MECTRoleNFTAddQuantity := "MECTRoleNFTAddQuantity"
  const MECTRoleNFTBurn := "MECTRoleNFTBurn"
  const MECTRoleNFTAddURI := "MECTRoleNFTAddURI"
  const MECTRoleNFTUpdateAttributes := "MECTRoleNFTUpdateAttributes"
  const MECTRoleTransfer := "MECTTransferRole"
}
