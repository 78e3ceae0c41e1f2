/** A vault's idle balance of one mint, as the report reads it from Neon and compares it with the chain. */
module IdleRows {
  import opened Wrappers

  datatype Row = Row(
    vaultId: string, vaultPubkey: string, managedVaultActive: bool, mint: string, symbol: string, decimals: Option<int>,
    neonAmountRaw: int, owner: string, tokenAccount: string, observedSlot: int, observedAt: string, sourceCommitment: string,
    activePositionCount: int, activePositionCurrentAmountRaw: int, activeAutodepositTargetCount: int, topUpFailureCount: int,
    lastTopUpFailureAt: Option<string>, chainAmountRaw: Option<int>, chainStatus: Option<string>)
}
