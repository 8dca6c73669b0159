/**
 Credit-based flow control of flow_control.py (ECSS-E-ST-50-12C sections 5.5.4 and
 5.5.5).  The functions on `Credit` are total: an operation that the program
 refuses leaves the value as it was, which is what the program does before it
 raises.  `CreditCounter` is the program's object.
 */
module FlowControl {
  import opened Wrappers

  const FCT_CREDIT_UNITS: nat := 8
  const MAX_CREDIT: nat := 56
  const MAX_OUTSTANDING_FCTS: nat := 7

  /** Running totals; they survive a reset of the two counters. */
  datatype Ledger = Ledger(fctsReceived: nat, ncharsSent: nat, fctsSent: nat, ncharsReceived: nat)

  datatype Credit = Credit(maxRx: nat, tx: nat, rx: nat, ledger: Ledger)

  function Fresh(maxRx: nat): Credit {
    Credit(maxRx, 0, 0, Ledger(0, 0, 0, 0))
  }

  // ----- transmit side ----------------------------------------------------------

  predicate FctFits(c: Credit) {
    c.tx + FCT_CREDIT_UNITS <= MAX_CREDIT
  }

  function OnFctReceived(c: Credit): Credit {
    if !FctFits(c) then c
    else c.(tx := c.tx + FCT_CREDIT_UNITS,
            ledger := c.ledger.(fctsReceived := c.ledger.fctsReceived + 1))
  }

  predicate CanSend(c: Credit) {
    c.tx > 0
  }

  function OnNCharSent(c: Credit): Credit {
    if !CanSend(c) then c
    else c.(tx := c.tx - 1, ledger := c.ledger.(ncharsSent := c.ledger.ncharsSent + 1))
  }

  // ----- receive side -----------------------------------------------------------

  predicate GrantFits(c: Credit) {
    c.rx + FCT_CREDIT_UNITS <= c.maxRx
  }

  function OnFctSent(c: Credit): Credit {
    if !GrantFits(c) then c
    else c.(rx := c.rx + FCT_CREDIT_UNITS,
            ledger := c.ledger.(fctsSent := c.ledger.fctsSent + 1))
  }

  predicate NCharExpected(c: Credit) {
    c.rx > 0
  }

  function OnNCharReceived(c: Credit): Credit {
    if !NCharExpected(c) then c
    else c.(rx := c.rx - 1, ledger := c.ledger.(ncharsReceived := c.ledger.ncharsReceived + 1))
  }

  /** Both conditions of 5.5.4p.  The headroom may be negative: the receive queue is
      not bounded by the capacity it is compared with. */
  predicate ShouldSendFct(c: Credit, headroom: int) {
    headroom >= FCT_CREDIT_UNITS && c.rx as int <= c.maxRx - FCT_CREDIT_UNITS
  }

  function Cleared(c: Credit): Credit {
    c.(tx := 0, rx := 0)
  }

  function InitialFctCount(capacity: nat): nat {
    if capacity / FCT_CREDIT_UNITS <= MAX_OUTSTANDING_FCTS
    then capacity / FCT_CREDIT_UNITS
    else MAX_OUTSTANDING_FCTS
  }

  /** The cap on rx_credit that a link of this capacity configures (5.5.4o). */
  function ConfiguredCap(capacity: nat, lowered: Option<nat>): nat {
    var capped := if capacity <= MAX_CREDIT then capacity else MAX_CREDIT;
    match lowered
    case None => capped
    case Some(n) => if n <= capped then n else capped
  }

  /** The cap is the least of the receive capacity, 56 and the value a user has lowered it
      to, if any. */
  lemma CapIsLeast(capacity: nat, lowered: Option<nat>)
    ensures var cap := ConfiguredCap(capacity, lowered);
            && cap <= capacity && cap <= 56 && (lowered.Some? ==> cap <= lowered.value)
            && (cap == capacity || cap == 56 || lowered == Some(cap))
  {
  }

  /** A reset forgets both credits and no total. */
  lemma ResetKeepsTotals(c: Credit)
    ensures Cleared(c) == Credit(c.maxRx, 0, 0, c.ledger)
  {
  }

  // ----- histories of operations ---------------------------------------------------

  datatype Op = FctIn | NCharOut | FctOut | NCharIn

  function Apply(c: Credit, op: Op): Credit {
    match op
    case FctIn => OnFctReceived(c)
    case NCharOut => OnNCharSent(c)
    case FctOut => OnFctSent(c)
    case NCharIn => OnNCharReceived(c)
  }

  function ApplyAll(c: Credit, ops: seq<Op>): Credit
    decreases |ops|
  {
    if ops == [] then c else ApplyAll(Apply(c, ops[0]), ops[1..])
  }

  /** The two counters stay inside their bounds. */
  predicate InBounds(c: Credit) {
    c.tx <= MAX_CREDIT && c.rx <= c.maxRx
  }

  /** Over any history without a reset, refused operations included, each counter is
      exactly what the ledger accounts for, and both stay inside their bounds. */
  lemma {:induction false} LedgerBalances(c: Credit, ops: seq<Op>)
    requires InBounds(c)
    ensures var d := ApplyAll(c, ops);
            && InBounds(d)
            && d.maxRx == c.maxRx
            && d.tx - c.tx == 8 * (d.ledger.fctsReceived - c.ledger.fctsReceived)
                              - (d.ledger.ncharsSent - c.ledger.ncharsSent)
            && d.rx - c.rx == 8 * (d.ledger.fctsSent - c.ledger.fctsSent)
                              - (d.ledger.ncharsReceived - c.ledger.ncharsReceived)
    decreases |ops|
  {
    if ops != [] {
      LedgerBalances(Apply(c, ops[0]), ops[1..]);
    }
  }

  /** Granting credit eagerly into an empty receive buffer: the number of FCTs that
      the gate lets through before it closes. */
  function BurstLength(c: Credit, headroom: int): nat
    decreases c.maxRx - c.rx
  {
    if ShouldSendFct(c, headroom) then 1 + BurstLength(OnFctSent(c), headroom) else 0
  }

  lemma {:induction false} BurstFillsTheCap(c: Credit, headroom: int)
    requires headroom >= FCT_CREDIT_UNITS && InBounds(c)
    ensures BurstLength(c, headroom) == (c.maxRx - c.rx) / 8
    decreases c.maxRx - c.rx
  {
    if ShouldSendFct(c, headroom) {
      BurstFillsTheCap(OnFctSent(c), headroom);
    }
  }

  /** From a cleared counter the burst has exactly the announced length when the cap
      is not lowered; the standard's seven-FCT limit and the 56-credit cap agree. */
  lemma BurstIsInitialFctCount(capacity: nat)
    requires capacity >= FCT_CREDIT_UNITS
    ensures BurstLength(Fresh(ConfiguredCap(capacity, None)), capacity) == InitialFctCount(capacity)
  {
    BurstFillsTheCap(Fresh(ConfiguredCap(capacity, None)), capacity);
  }

  // ----- the program's object --------------------------------------------------------

  datatype Verdict = Accepted | CreditFault | CallerFault

  class CreditCounter {
    const maxRxCredit: nat
    var txCredit: nat
    var rxCredit: nat
    var fctsReceived: nat
    var ncharsSent: nat
    var fctsSent: nat
    var ncharsReceived: nat

    constructor (maxRxCredit: nat)
      requires maxRxCredit <= MAX_CREDIT
      ensures View() == Fresh(maxRxCredit)
    {
      this.maxRxCredit := maxRxCredit;
      txCredit, rxCredit := 0, 0;
      fctsReceived, ncharsSent, fctsSent, ncharsReceived := 0, 0, 0, 0;
    }

    function View(): Credit
      reads this
    {
      Credit(maxRxCredit, txCredit, rxCredit, Ledger(fctsReceived, ncharsSent, fctsSent, ncharsReceived))
    }

    method DoFctReceived() returns (v: Verdict)
      modifies this
      ensures v == if old(FctFits(View())) then Accepted else CreditFault
      ensures View() == OnFctReceived(old(View()))
    {
      var newCredit := txCredit + FCT_CREDIT_UNITS;
      if newCredit > MAX_CREDIT {
        return CreditFault;
      }
      txCredit := newCredit;
      fctsReceived := fctsReceived + 1;
      v := Accepted;
    }

    method DoNCharSent() returns (v: Verdict)
      modifies this
      ensures v == if old(CanSend(View())) then Accepted else CallerFault
      ensures View() == OnNCharSent(old(View()))
    {
      if txCredit <= 0 {
        return CallerFault;
      }
      txCredit := txCredit - 1;
      ncharsSent := ncharsSent + 1;
      v := Accepted;
    }

    method DoFctSent() returns (v: Verdict)
      modifies this
      ensures v == if old(GrantFits(View())) then Accepted else CallerFault
      ensures View() == OnFctSent(old(View()))
    {
      var newCredit := rxCredit + FCT_CREDIT_UNITS;
      if newCredit > maxRxCredit {
        return CallerFault;
      }
      rxCredit := newCredit;
      fctsSent := fctsSent + 1;
      v := Accepted;
    }

    method DoNCharReceived() returns (v: Verdict)
      modifies this
      ensures v == if old(NCharExpected(View())) then Accepted else CreditFault
      ensures View() == OnNCharReceived(old(View()))
    {
      if rxCredit <= 0 {
        return CreditFault;
      }
      rxCredit := rxCredit - 1;
      ncharsReceived := ncharsReceived + 1;
      v := Accepted;
    }

    method DoReset()
      modifies this
      ensures View() == Cleared(old(View()))
    {
      txCredit := 0;
      rxCredit := 0;
    }
  }

  datatype CapError = NegativeCap | CapAboveMaximum

  /** Construction refuses a cap outside the range of the standard. */
  method NewCreditCounter(maxRxCredit: int) returns (r: Result<CreditCounter, CapError>)
    ensures r.Ok? <==> 0 <= maxRxCredit <= MAX_CREDIT
    ensures r.Ok? ==> fresh(r.value) && r.value.View() == Fresh(maxRxCredit)
    ensures maxRxCredit < 0 ==> r == Err(NegativeCap)
    ensures maxRxCredit > MAX_CREDIT ==> r == Err(CapAboveMaximum)
  {
    if maxRxCredit < 0 {
      return Err(NegativeCap);
    }
    if maxRxCredit > MAX_CREDIT {
      return Err(CapAboveMaximum);
    }
    var c := new CreditCounter(maxRxCredit);
    r := Ok(c);
  }
}
