/**
 * The gateway's block-recovery back-off table and its neutrality-policy codes.
 * Intervals are in integer milliseconds (the source writes seconds as floats).
 */
module GatewayConstants {

  /** Delay before each block-recovery retry: 0.1 s, 0.5 s, 1 s, 2 s, 5 s. */
  const BlockRecoveryIntervalsMs: seq<nat> := [100, 500, 1000, 2000, 5000]

  const BlockRecoveryMaxRetryAttempts: nat := |BlockRecoveryIntervalsMs|

  /** Longest time a block may wait for recovery: 15 s. */
  const BlockRecoveryMaxQueueTimeMs: nat := 15000

  const BlockchainPingIntervalMs: nat := 15000

  /** Codes of the neutrality assertion policy for releasing encryption keys. */
  const ReceiptCount: int := 1
  const ReceiptPercent: int := 2
  const ReceiptCountAndPercent: int := 3
  const ReleaseImmediately: int := 99

  const NeutralityPolicy: int := ReceiptPercent
  const NeutralityExpectedReceiptCount: int := 1
  const NeutralityExpectedReceiptPercent: int := 50

  function Sum(s: seq<nat>): nat
  {
    if s == [] then 0 else s[0] + Sum(s[1..])
  }

  /** The retry limit is the table length, so a retry index below the limit is in range. */
  lemma MaxRetryAttemptsIsTableLength()
    ensures BlockRecoveryMaxRetryAttempts == |BlockRecoveryIntervalsMs| == 5
  {
  }

  /** Repeated recovery attempts wait longer and longer. */
  lemma RecoveryIntervalsIncrease()
    ensures forall i, j :: 0 <= i < j < |BlockRecoveryIntervalsMs| ==>
      BlockRecoveryIntervalsMs[i] < BlockRecoveryIntervalsMs[j]
  {
  }

  /** All retries together (8.6 s) fit in the maximal queue time. */
  lemma RecoveryIntervalsFitQueueTime()
    ensures Sum(BlockRecoveryIntervalsMs) == 8600
    ensures Sum(BlockRecoveryIntervalsMs) < BlockRecoveryMaxQueueTimeMs
  {
    assert BlockRecoveryIntervalsMs[1..][1..][1..][1..][1..] == [];
  }

  /** Every back-off delay halves exactly, so the alarm slack `delay / 2` loses nothing in milliseconds. */
  lemma RecoveryIntervalsHalveExactly()
    ensures forall i :: 0 <= i < |BlockRecoveryIntervalsMs| ==>
      2 * (BlockRecoveryIntervalsMs[i] / 2) == BlockRecoveryIntervalsMs[i]
  {
  }

  lemma NeutralityPolicyCodes()
    ensures |{ReceiptCount, ReceiptPercent, ReceiptCountAndPercent, ReleaseImmediately}| == 4
    ensures NeutralityPolicy in {ReceiptCount, ReceiptPercent, ReceiptCountAndPercent, ReleaseImmediately}
    ensures 0 <= NeutralityExpectedReceiptPercent <= 100
  {
  }
}
