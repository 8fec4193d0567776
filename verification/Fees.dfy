/** Fee splits and the welcome grant's gross-up (tet-core/src/fees.rs, tet-core/src/grants.rs). */
module Fees {
  import opened Basics

  const BPS_DENOM: nat := 10_000
  const STEVEMON: nat := 1_000_000
  const MAX_SUPPLY_MICRO: nat := 10_000_000_000 * STEVEMON
  const MAX_CHARGE_MICRO: nat := 10_000_000_000 * 1_000_000
  const TRANSFER_FEE_BPS_MIN: nat := 100
  const TRANSFER_FEE_BPS_MAX: nat := 1_000
  const TRANSFER_FEE_BPS_DEFAULT: nat := 100
  const NETWORK_FEE_BPS: nat := 2_000
  const BURN_FRACTION_OF_NETWORK_FEE_BPS: nat := 2_500
  const AI_INFERENCE_POOL_BPS: nat := 5_000
  const FILE_FEE_MICRO: nat := 1_000
  const FILE_SPLIT_TREASURY_BPS: nat := 2_500
  const FILE_SPLIT_STORAGE_BPS: nat := 5_000
  const WELCOME_AMOUNT_MICRO: nat := 100_000_000

  datatype FeeKind = TransferFee(feeBps: nat) | AiUtility | AiInference | File

  datatype FeeSplit = FeeSplit(net: nat, pool: nat, treasury: nat, burn: nat) {
    function Fee(): nat {
      SatAdd(SatAdd(pool, treasury), burn)
    }
  }

  datatype FeeError = FeeBpsOutOfRange(got: nat) | AmountOutOfRange(amount: nat)

  function BpsOf(amount: nat, bps: nat): nat {
    amount * bps / BPS_DENOM
  }

  function ValidateTransferFeeBps(feeBps: nat): Result<(), FeeError> {
    if TRANSFER_FEE_BPS_MIN <= feeBps <= TRANSFER_FEE_BPS_MAX then Ok(()) else Err(FeeBpsOutOfRange(feeBps))
  }

  lemma BpsOfBound(amount: nat, bps: nat)
    requires bps <= BPS_DENOM
    ensures BpsOf(amount, bps) <= amount
  {
    assert amount * bps <= amount * BPS_DENOM;
  }

  function Charge(kind: FeeKind, amount: nat): (r: Result<FeeSplit, FeeError>)
    ensures r.Ok? <==> amount <= MAX_CHARGE_MICRO
                       && (kind.TransferFee? ==> TRANSFER_FEE_BPS_MIN <= kind.feeBps <= TRANSFER_FEE_BPS_MAX)
    ensures r.Ok? ==> r.value.net + r.value.pool + r.value.treasury + r.value.burn == amount
  {
    if amount > MAX_CHARGE_MICRO then Err(AmountOutOfRange(amount))
    else
      match kind
      case TransferFee(feeBps) =>
        var _ :- ValidateTransferFeeBps(feeBps);
        BpsOfBound(amount, feeBps);
        var fee := BpsOf(amount, feeBps);
        var pool := fee / 2;
        Ok(FeeSplit(amount - fee, pool, 0, fee - pool))
      case AiUtility =>
        BpsOfBound(amount, NETWORK_FEE_BPS);
        var fee := BpsOf(amount, NETWORK_FEE_BPS);
        BpsOfBound(fee, BURN_FRACTION_OF_NETWORK_FEE_BPS);
        var burn := BpsOf(fee, BURN_FRACTION_OF_NETWORK_FEE_BPS);
        Ok(FeeSplit(amount - fee, 0, fee - burn, burn))
      case AiInference =>
        BpsOfBound(amount, AI_INFERENCE_POOL_BPS);
        var pool := BpsOf(amount, AI_INFERENCE_POOL_BPS);
        Ok(FeeSplit(0, pool, 0, amount - pool))
      case File =>
        var storage := BpsOf(amount, FILE_SPLIT_STORAGE_BPS);
        var treasury := BpsOf(amount, FILE_SPLIT_TREASURY_BPS);
        assert storage + treasury <= amount;
        Ok(FeeSplit(storage, 0, treasury, amount - storage - treasury))
  }

  /** Every share of every charge, in numbers. */
  lemma SharesAre(kind: FeeKind, amount: nat)
    requires Charge(kind, amount).Ok?
    ensures var s := Charge(kind, amount).value;
            match kind
            case TransferFee(feeBps) =>
              var fee := amount * feeBps / 10_000;
              fee <= amount && s == FeeSplit(amount - fee, fee / 2, 0, fee - fee / 2)
            case AiUtility =>
              var fee := amount * 2_000 / 10_000;
              var burn := fee * 2_500 / 10_000;
              burn <= fee <= amount && s == FeeSplit(amount - fee, 0, fee - burn, burn)
            case AiInference =>
              var pool := amount * 5_000 / 10_000;
              pool <= amount && s == FeeSplit(0, pool, 0, amount - pool)
            case File =>
              var (storage, treasury) := (amount * 5_000 / 10_000, amount * 2_500 / 10_000);
              storage + treasury <= amount && s == FeeSplit(storage, 0, treasury, amount - storage - treasury)
  {
  }

  // `files::file_fee_split`: the default split (all zero) stands in for a refused charge.
  function FileFeeSplit(fee: nat): FeeSplit {
    match Charge(File, fee)
    case Ok(split) => split
    case Err(_) => FeeSplit(0, 0, 0, 0)
  }

  // ----- the recipient's share as a function of the amount sent

  function Net(gross: nat, bps: nat): (net: nat)
    requires bps <= BPS_DENOM
  {
    BpsOfBound(gross, bps);
    gross - BpsOf(gross, bps)
  }

  lemma ChargeNet(gross: nat, bps: nat)
    requires TRANSFER_FEE_BPS_MIN <= bps <= TRANSFER_FEE_BPS_MAX && gross <= MAX_CHARGE_MICRO
    ensures Charge(TransferFee(bps), gross).value.net == Net(gross, bps)
  {
  }

  // Net is the ceiling of gross * (1 - rate).
  lemma NetBounds(gross: nat, bps: nat)
    requires bps <= BPS_DENOM
    ensures gross * (BPS_DENOM - bps) <= Net(gross, bps) * BPS_DENOM < gross * (BPS_DENOM - bps) + BPS_DENOM
  {
    var p := gross * bps;
    assert p == p / BPS_DENOM * BPS_DENOM + p % BPS_DENOM;
    assert gross * (BPS_DENOM - bps) == gross * BPS_DENOM - p;
  }

  // One more micro sent is at most one more received, and never fewer.
  lemma NetSteps(gross: nat, bps: nat)
    requires bps <= BPS_DENOM
    ensures Net(gross, bps) <= Net(gross + 1, bps) <= Net(gross, bps) + 1
  {
    NetBounds(gross, bps);
    NetBounds(gross + 1, bps);
    var d := BPS_DENOM - bps;
    assert (gross + 1) * d == gross * d + d;
  }

  lemma {:induction false} NetMonotone(lo: nat, hi: nat, bps: nat)
    requires bps <= BPS_DENOM && lo <= hi
    ensures Net(lo, bps) <= Net(hi, bps)
    decreases hi - lo
  {
    if lo < hi {
      NetSteps(lo, bps);
      NetMonotone(lo + 1, hi, bps);
    }
  }

  // The gross-up loop's starting value.
  function GrossStart(target: nat, bps: nat): nat
    requires bps < BPS_DENOM
  {
    target * BPS_DENOM / (BPS_DENOM - bps)
  }

  lemma GrossStartBounds(target: nat, bps: nat)
    requires bps < BPS_DENOM
    ensures GrossStart(target, bps) * (BPS_DENOM - bps) <= target * BPS_DENOM
    ensures target * BPS_DENOM < (GrossStart(target, bps) + 1) * (BPS_DENOM - bps)
  {
    var d, n := BPS_DENOM - bps, target * BPS_DENOM;
    assert n == n / d * d + n % d;
    assert (n / d + 1) * d == n / d * d + d;
  }

  // The start already nets the target exactly, and any larger amount nets more.
  lemma GrossStartIsExact(target: nat, bps: nat, gross: nat)
    requires bps < BPS_DENOM
    ensures Net(GrossStart(target, bps), bps) == target
    ensures gross > GrossStart(target, bps) ==> Net(gross, bps) > target
  {
    var g := GrossStart(target, bps);
    GrossStartBounds(target, bps);
    NetBounds(g, bps);
    NetBounds(g + 1, bps);
    if gross > g {
      NetMonotone(g + 1, gross, bps);
    }
  }

  // When is the start also the smallest amount that nets the target? Exactly when the division that
  // produced it left a remainder of at least the rate.
  lemma GrossStartIsSmallestIff(target: nat, bps: nat)
    requires bps < BPS_DENOM && target > 0
    ensures (forall gross: nat :: Net(gross, bps) >= target ==> gross >= GrossStart(target, bps))
            <==> target * BPS_DENOM % (BPS_DENOM - bps) >= bps
  {
    var g, d, n := GrossStart(target, bps), BPS_DENOM - bps, target * BPS_DENOM;
    GrossStartBounds(target, bps);
    assert n == g * d + n % d;
    assert g > 0;
    assert (g - 1) * d == g * d - d;
    NetBounds(g - 1, bps);
    if n % d >= bps {
      forall gross: nat | Net(gross, bps) >= target ensures gross >= g {
        if gross < g {
          NetMonotone(gross, g - 1, bps);
        }
      }
    } else {
      assert Net(g - 1, bps) >= target;
    }
  }

  // The smallest-amount reading of the function's comment fails for other targets and rates.
  lemma GrossStartNotAlwaysSmallest()
    ensures GrossStart(9, 1_000) == 10 && Net(10, 1_000) == 9 && Net(9, 1_000) == 9
  {
  }

  /** `welcome_transfer_micro`: what to send so that exactly the welcome grant arrives. */
  method WelcomeTransferMicro() returns (g: nat)
    ensures Charge(TransferFee(TRANSFER_FEE_BPS_MIN), g).Ok?
    ensures Charge(TransferFee(TRANSFER_FEE_BPS_MIN), g).value.net == WELCOME_AMOUNT_MICRO
    ensures forall gross: nat :: Net(gross, TRANSFER_FEE_BPS_MIN) >= WELCOME_AMOUNT_MICRO ==> gross >= g
    ensures forall gross: nat :: gross > g ==> Net(gross, TRANSFER_FEE_BPS_MIN) > WELCOME_AMOUNT_MICRO
  {
    var bps := TRANSFER_FEE_BPS_MIN;
    g := GrossStart(WELCOME_AMOUNT_MICRO, bps);
    ghost var enough := WELCOME_AMOUNT_MICRO * 2;
    assert Net(enough, bps) >= WELCOME_AMOUNT_MICRO && g <= enough;
    ghost var start := g;
    while true
      invariant start <= g <= enough
      invariant forall gross: nat :: start <= gross < g ==> Net(gross, bps) < WELCOME_AMOUNT_MICRO
      decreases enough - g
    {
      var charged := Charge(TransferFee(bps), g);
      ChargeNet(g, bps);
      var net := if charged.Ok? then charged.value.net else 0;
      if net >= WELCOME_AMOUNT_MICRO {
        break;
      }
      g := g + 1;
    }
    GrossStartIsExact(WELCOME_AMOUNT_MICRO, bps, start);
    GrossStartIsSmallestIff(WELCOME_AMOUNT_MICRO, bps);
    forall gross: nat | gross > g ensures Net(gross, bps) > WELCOME_AMOUNT_MICRO {
      GrossStartIsExact(WELCOME_AMOUNT_MICRO, bps, gross);
    }
  }
}
