/** The application shell: wallet session, role loading, tab gating and lot
    registration, as the state of one `App` component.

    Each React state cell is a field. Each handler or effect is a method. A
    handler that awaits is cut at the await into its synchronous start and
    a continuation that receives what was awaited as a parameter (what the
    wallet returned, whether the role queries succeeded, the fate of the
    transaction). */
module AppShell {
  import opened Optional
  import opened JsString
  import opened JsBigInt
  import opened Chain
  import opened Roles
  import opened Navigation
  import opened LotForm

  /** The legal/technical responsible party as typed in its form. */
  datatype LegalData = LegalData(name: string, id: string, phone: string, email: string)

  datatype LegalField = Name | Id | Phone | Email

  function LegalFieldOf(d: LegalData, f: LegalField): string {
    match f
    case Name => d.name
    case Id => d.id
    case Phone => d.phone
    case Email => d.email
  }

  /** `{ ...prev, [field]: value }` on the responsible-party record. */
  function WithLegalField(d: LegalData, f: LegalField, v: string): (r: LegalData)
    ensures LegalFieldOf(r, f) == v
    ensures forall g :: g != f ==> LegalFieldOf(r, g) == LegalFieldOf(d, g)
  {
    match f
    case Name => d.(name := v)
    case Id => d.(id := v)
    case Phone => d.(phone := v)
    case Email => d.(email := v)
  }

  /** The record of the last registered lot, shown in the lot popup. */
  datatype LotInfo = LotInfo(
    medicineName: string,
    seriesCode: string,
    expDate: string,
    account: string,
    txHash: string,
    quantity: string,
    responsable: LegalData)

  /** How the awaited part of `handleConnect` ended: the wallet gave an
      address and the contract was built; the wallet gave an address but
      building the contract threw; or the wallet step itself threw. */
  datatype ConnectOutcome = Connected(address: string) | AccountOnly(address: string) | ConnectFailed

  /** The payload of the provider's `accountsChanged` event. */
  datatype AccountsPayload = AccountList(accounts: seq<string>) | NotAList

  /** `accounts?.[0] ?? ""` */
  function FirstAccount(p: AccountsPayload): (a: string)
    ensures p.AccountList? && p.accounts != [] ==> a == p.accounts[0]
    ensures p.NotAList? || p.accounts == [] ==> a == ""
  {
    match p
    case AccountList(accounts) => if accounts != [] then accounts[0] else ""
    case NotAList => ""
  }

  /** How a `registrarLote` click ends. The first six are the local checks,
      in the order they run; the last two follow the contract call. */
  datatype RegisterOutcome =
    | NoContract | AlreadyRegistering | InvalidDates | InvalidQuantity
    | NonPositiveQuantity | MissingResponsible | TxFailed | Registered

  /** The alert each outcome raises, if any. */
  function AlertText(o: RegisterOutcome): (alert: Option<string>)
    ensures alert.None? <==> o == AlreadyRegistering || o == Registered
  {
    match o
    case NoContract => Some("Conecta tu wallet primero")
    case AlreadyRegistering => None
    case InvalidDates => Some("Completa las fechas antes de registrar el lote.")
    case InvalidQuantity => Some("Ingresa una cantidad válida para el lote.")
    case NonPositiveQuantity => Some("La cantidad debe ser mayor a cero.")
    case MissingResponsible => Some("Completa los datos del responsable técnico.")
    case TxFailed => Some("Transacción cancelada o fallida.")
    case Registered => None
  }

  predicate IsLocalCheck(o: RegisterOutcome) {
    !o.TxFailed? && !o.Registered?
  }

  /** Position of a local check in the validation chain. */
  function Stage(o: RegisterOutcome): nat {
    match o
    case NoContract => 0
    case AlreadyRegistering => 1
    case InvalidDates => 2
    case InvalidQuantity => 3
    case NonPositiveQuantity => 4
    case MissingResponsible => 5
    case TxFailed => 6
    case Registered => 7
  }

  /** Whether the local check `o` rejects this input. */
  predicate Fails(o: RegisterOutcome, hasContract: bool, busy: bool, lot: LotData, legal: LegalData,
                  parseDate: string -> Option<int>)
  {
    match o
    case NoContract => !hasContract
    case AlreadyRegistering => busy
    case InvalidDates => parseDate(lot.mfgDate).None? || parseDate(lot.expDate).None?
    case InvalidQuantity => ParseBigInt(Trim(lot.quantity)).None?
    case NonPositiveQuantity => ParseBigInt(Trim(lot.quantity)).Some? && ParseBigInt(Trim(lot.quantity)).value <= 0
    case MissingResponsible => Trim(legal.name) == "" || Trim(legal.id) == ""
    case TxFailed => false
    case Registered => false
  }

  /** Every local check placed before stage `k` passes. */
  predicate PassesChecksBefore(k: nat, hasContract: bool, busy: bool, lot: LotData, legal: LegalData,
                               parseDate: string -> Option<int>)
  {
    && (k > Stage(NoContract) ==> !Fails(NoContract, hasContract, busy, lot, legal, parseDate))
    && (k > Stage(AlreadyRegistering) ==> !Fails(AlreadyRegistering, hasContract, busy, lot, legal, parseDate))
    && (k > Stage(InvalidDates) ==> !Fails(InvalidDates, hasContract, busy, lot, legal, parseDate))
    && (k > Stage(InvalidQuantity) ==> !Fails(InvalidQuantity, hasContract, busy, lot, legal, parseDate))
    && (k > Stage(NonPositiveQuantity) ==> !Fails(NonPositiveQuantity, hasContract, busy, lot, legal, parseDate))
    && (k > Stage(MissingResponsible) ==> !Fails(MissingResponsible, hasContract, busy, lot, legal, parseDate))
  }

  /** `Math.floor(ms / 1000)`: whole seconds of an epoch time in ms. */
  function Seconds(ms: int): (s: int)
    ensures s * 1000 <= ms < s * 1000 + 1000
  {
    ms / 1000
  }

  /** What a click saw when it sent the call: the values its closure
      captured, which the continuation records. */
  datatype Snapshot = Snapshot(lot: LotData, account: string, legal: LegalData)

  /** How the synchronous part of a click ends: stopped by a local check,
      or with the call sent. */
  datatype Click = Stopped(reason: RegisterOutcome) | Sent(snapshot: Snapshot)

  /** The local checks' verdict: a rejection, or the one call to make. */
  datatype Check = Rejected(reason: RegisterOutcome) | Ready(call: ContractCall)

  /** The checks inside the `try` block of `registrarLote`, once both dates
      have parsed: the quantity, then the responsible party; or the call. */
  function PayloadCheck(lot: LotData, legal: LegalData, mfgMs: int, expMs: int): (c: Check)
    ensures c.Ready? ==> c.call.RegistrarLote?
  {
    var quantity := ParseBigInt(Trim(lot.quantity));
    if quantity.None? then Rejected(InvalidQuantity)
    else if quantity.value <= 0 then Rejected(NonPositiveQuantity)
    else
      var responsable := Responsable(Trim(legal.name), Trim(legal.id), Trim(legal.phone), Trim(legal.email));
      if responsable.nombre == "" || responsable.dni == "" then Rejected(MissingResponsible)
      else
        Ready(ContractCall.RegistrarLote(lot.medicineName, lot.activeIngredient, Seconds(mfgMs), Seconds(expMs),
                                         lot.seriesCode, responsable, quantity.value))
  }

  /** The whole validation chain of `registrarLote` up to the contract
      call. */
  function RegistrationCheck(hasContract: bool, busy: bool, lot: LotData, legal: LegalData,
                             parseDate: string -> Option<int>): (c: Check)
    ensures c.Ready? ==> c.call.RegistrarLote?
  {
    if !hasContract then Rejected(NoContract)
    else if busy then Rejected(AlreadyRegistering)
    else
      var mfgMs := parseDate(lot.mfgDate);
      var expMs := parseDate(lot.expDate);
      if mfgMs.None? || expMs.None? then Rejected(InvalidDates)
      else PayloadCheck(lot, legal, mfgMs.value, expMs.value)
  }

  /** A rejection names a local check that fails while every earlier check
      passes, and the call is made exactly when no check fails. */
  lemma RegistrationCheckOrder(hasContract: bool, busy: bool, lot: LotData, legal: LegalData,
                               parseDate: string -> Option<int>)
    ensures var c := RegistrationCheck(hasContract, busy, lot, legal, parseDate);
            && (c.Rejected? ==>
                  && IsLocalCheck(c.reason)
                  && Fails(c.reason, hasContract, busy, lot, legal, parseDate)
                  && PassesChecksBefore(Stage(c.reason), hasContract, busy, lot, legal, parseDate))
            && (c.Ready? <==> PassesChecksBefore(Stage(TxFailed), hasContract, busy, lot, legal, parseDate))
  {
  }

  /** The call carries the form's names and series code untouched, the
      dates in whole seconds, the trimmed responsible party (name and id
      present) and the quantity BigInt reads from the untrimmed text, which
      is positive. */
  lemma RegistrationCheckCall(hasContract: bool, busy: bool, lot: LotData, legal: LegalData,
                              parseDate: string -> Option<int>)
    ensures var c := RegistrationCheck(hasContract, busy, lot, legal, parseDate);
            c.Ready? ==>
              var mfgMs := parseDate(lot.mfgDate).value;
              var expMs := parseDate(lot.expDate).value;
              && c.call.name == lot.medicineName
              && c.call.activeIngredient == lot.activeIngredient
              && c.call.seriesCode == lot.seriesCode
              && c.call.mfgDate * 1000 <= mfgMs < c.call.mfgDate * 1000 + 1000
              && c.call.expDate * 1000 <= expMs < c.call.expDate * 1000 + 1000
              && c.call.responsable == Responsable(Trim(legal.name), Trim(legal.id), Trim(legal.phone), Trim(legal.email))
              && c.call.responsable.nombre != "" && c.call.responsable.dni != ""
              && c.call.quantity > 0
              && Some(c.call.quantity) == ParseBigInt(lot.quantity)
  {
    ParseIgnoresTrim(lot.quantity);
  }

  /** "0" reads as zero. */
  lemma QuantityZero()
    ensures ParseBigInt(Trim("0")) == Some(0)
  {
    assert ParseBigInt("0") == Some(0) by {
      assert IsDecimalDigits("0");
      UnsignedDigits("0", 0);
    }
    ParseIgnoresTrim("0");
  }

  /** "-5" reads as minus five. */
  lemma QuantityMinusFive()
    ensures ParseBigInt(Trim("-5")) == Some(-5)
  {
    assert ParseBigInt("-5") == Some(-5) by {
      assert IsDecimalDigits("5");
      NegatedDigits("5", 5);
      assert "-" + "5" == "-5";
    }
    ParseIgnoresTrim("-5");
  }

  /** "100" reads as one hundred. */
  lemma QuantityHundred()
    ensures ParseBigInt(Trim("100")) == Some(100)
  {
    assert ParseBigInt("100") == Some(100) by {
      assert IsDecimalDigits("100");
      assert DigitsValue("100", 10) == 100 by {
        assert "100"[..2] == "10" && "10"[..1] == "1" && "1"[..0] == "";
      }
      UnsignedDigits("100", 100);
    }
    ParseIgnoresTrim("100");
  }

  /** " abc " is no number. */
  lemma QuantityLetters()
    ensures ParseBigInt(Trim(" abc ")) == None
  {
    assert Trim(" abc ") == "abc" by {
      assert TrimStart(" abc ") == "abc ";
      assert TrimEnd("abc ") == "abc";
    }
    TrimNoop("abc");
    assert !IsDigitIn("abc"[0], 10);
  }

  /** Quantities "0", "-5" and "" (BigInt reads a blank text as 0) are
      rejected as not positive; " abc " is not a number at all; "100" reaches
      the contract as 100 once the other fields are in order. */
  lemma QuantityScreening(lot: LotData, legal: LegalData, parseDate: string -> Option<int>)
    requires parseDate(lot.mfgDate).Some? && parseDate(lot.expDate).Some?
    ensures RegistrationCheck(true, false, lot.(quantity := "0"), legal, parseDate) == Rejected(NonPositiveQuantity)
    ensures RegistrationCheck(true, false, lot.(quantity := "-5"), legal, parseDate) == Rejected(NonPositiveQuantity)
    ensures RegistrationCheck(true, false, lot.(quantity := ""), legal, parseDate) == Rejected(NonPositiveQuantity)
    ensures RegistrationCheck(true, false, lot.(quantity := " abc "), legal, parseDate) == Rejected(InvalidQuantity)
    ensures Trim(legal.name) != "" && Trim(legal.id) != "" ==>
              var c := RegistrationCheck(true, false, lot.(quantity := "100"), legal, parseDate);
              c.Ready? && c.call.quantity == 100
  {
    QuantityZero();
    QuantityMinusFive();
    QuantityHundred();
    QuantityLetters();
  }

  function Min(a: nat, b: nat): nat {
    if a < b then a else b
  }

  /** `formatAccount`: "" for "", otherwise the first six characters, an
      ellipsis and the last four (fewer when the text is shorter, as `slice`
      does). */
  function FormatAccount(value: string): (r: string)
    ensures value == "" <==> r == ""
    ensures value != "" ==>
              var head, tail := Min(6, |value|), Min(4, |value|);
              && |r| == head + 1 + tail
              && r[..head] == value[..head]
              && r[head] == '\U{2026}'
              && r[head + 1..] == value[|value| - tail..]
  {
    if value == "" then ""
    else value[..Min(6, |value|)] + ['\U{2026}'] + value[|value| - Min(4, |value|)..]
  }

  /** A full address keeps its "0x" and four more characters in front and
      its last four behind: eleven characters in all. */
  lemma FormatAccountOfAddress(value: string)
    requires |value| == 42
    ensures var r := FormatAccount(value);
            |r| == 11 && r[..6] == value[..6] && r[6] == '\U{2026}' && r[7..] == value[38..]
  {
  }

  /** The message shown when the role queries fail. */
  const RoleErrorText: string := "No fue posible recuperar los roles asignados. Intenta nuevamente."

  class App {
    /** `sidebarNavigation`: the full tab list, fixed for the session. */
    const navigation: seq<SidebarItem>
    /** The lot form's record and its updater. */
    const lot: LotDraft

    var account: string
    var contract: Option<Contract>
    var isConnecting: bool
    var showPopup: bool
    var lastLotInfo: Option<LotInfo>
    var isRegistering: bool
    var activeTab: Option<TabId>
    var roleStatus: RoleStatus
    var roleHashes: RoleTable<string>
    var isLoadingRoles: bool
    var roleError: Option<string>
    var legalData: LegalData

    /** How many times the role effect has run; the load started by run `k`
        is cancelled once a later run (or teardown) has happened. */
    var sessionRuns: nat
    /** The writes sent to the contract, oldest first. */
    ghost var calls: seq<ContractCall>
    /** The registration whose transaction is awaited, if any. */
    ghost var pending: Option<Snapshot>

    /** Whether the role load started by run `k` has been cancelled. */
    predicate Cancelled(k: nat)
      reads this
    {
      k != sessionRuns
    }

    /** `availableTabs` */
    function Available(): (tabs: seq<SidebarItem>)
      reads this
      ensures IsSubsequence(tabs, navigation)
    {
      AvailableTabsInOrder(navigation, roleStatus);
      AvailableTabs(navigation, roleStatus)
    }

    /** The initial render: no session, no roles, empty forms. */
    constructor (navigation: seq<SidebarItem>, id: string -> string)
      ensures this.navigation == navigation && fresh(lot) && lot.data == EmptyLot()
      ensures account == "" && contract == None && !isConnecting
      ensures !showPopup && lastLotInfo == None && !isRegistering && activeTab == None
      ensures roleStatus == NoRoles() && roleHashes == DefaultHashes(id)
      ensures !isLoadingRoles && roleError == None
      ensures legalData == LegalData("", "", "", "") && sessionRuns == 0 && calls == [] && pending == None
    {
      this.navigation := navigation;
      lot := new LotDraft();
      account, contract, isConnecting := "", None, false;
      showPopup, lastLotInfo, isRegistering, activeTab := false, None, false, None;
      roleStatus, roleHashes := NoRoles(), DefaultHashes(id);
      isLoadingRoles, roleError := false, None;
      legalData := LegalData("", "", "", "");
      sessionRuns, calls, pending := 0, [], None;
    }

    /** The synchronous start of `handleConnect`: ignored while a
        connection is pending, otherwise marks one as pending. `started`
        says whether the wallet is asked. */
    method BeginConnect() returns (started: bool)
      modifies this`isConnecting
      ensures started <==> !old(isConnecting)
      ensures isConnecting
    {
      if isConnecting {
        return false;
      }
      isConnecting := true;
      started := true;
    }

    /** The rest of `handleConnect`, once the wallet has answered: the
        account is set as soon as the wallet gives an address, the contract
        only if it could also be built; no connection is pending
        afterwards. */
    method FinishConnect(wallet: ConnectOutcome)
      modifies this`isConnecting, this`account, this`contract
      ensures !isConnecting
      ensures wallet.Connected? ==> account == wallet.address && contract == Some(Contract(wallet.address))
      ensures wallet.AccountOnly? ==> account == wallet.address && contract == old(contract)
      ensures wallet.ConnectFailed? ==> account == old(account) && contract == old(contract)
    {
      match wallet {
        case Connected(address) =>
          account := address;
          contract := Some(Contract(address));
        case AccountOnly(address) =>
          account := address;
        case ConnectFailed =>
      }
      isConnecting := false;
    }

    /** The provider's `accountsChanged` listener. */
    method OnAccountsChanged(payload: AccountsPayload)
      modifies this`account, this`contract
      ensures account == FirstAccount(payload)
      ensures contract == if account == "" then None else old(contract)
    {
      var a := FirstAccount(payload);
      account := a;
      if a == "" {
        contract := None;
      }
    }

    /** The role effect, run after `contract` or `account` changed: the
        previous run's load is cancelled; without a session the roles are
        reset, with one a new load starts and its run number is returned. */
    method RoleEffect() returns (load: Option<nat>)
      modifies this`sessionRuns, this`roleStatus, this`isLoadingRoles, this`roleError
      ensures sessionRuns == old(sessionRuns) + 1 && Cancelled(old(sessionRuns))
      ensures contract.None? || account == "" ==>
                roleStatus == NoRoles() && !isLoadingRoles && roleError == None && load == None
      ensures contract.Some? && account != "" ==>
                roleStatus == old(roleStatus) && isLoadingRoles && roleError == None &&
                load == Some(sessionRuns) && !Cancelled(load.value)
    {
      sessionRuns := sessionRuns + 1;
      if contract.None? || account == "" {
        roleStatus := NoRoles();
        isLoadingRoles := false;
        roleError := None;
        load := None;
        return;
      }
      isLoadingRoles := true;
      roleError := None;
      load := Some(sessionRuns);
    }

    /** The answer to the four role-hash getters of load `run`: committed
        only if the load is still current; `proceed` says whether the
        membership queries follow. */
    method ReceiveRoleHashes(run: nat, answer: Option<RoleTable<string>>) returns (proceed: bool)
      requires Cancelled(run) || isLoadingRoles
      modifies this`roleHashes, this`roleError, this`isLoadingRoles
      ensures old(Cancelled(run)) ==> !proceed && unchanged(this)
      ensures !old(Cancelled(run)) && answer.None? ==>
                !proceed && roleError == Some(RoleErrorText) && !isLoadingRoles && roleHashes == old(roleHashes)
      ensures !old(Cancelled(run)) && answer.Some? ==>
                proceed && roleHashes == answer.value && roleError == old(roleError) && isLoadingRoles == old(isLoadingRoles)
    {
      if Cancelled(run) {
        return false;
      }
      match answer
      case None =>
        roleError := Some(RoleErrorText);
        isLoadingRoles := false;
        proceed := false;
      case Some(hashes) =>
        roleHashes := hashes;
        proceed := true;
    }

    /** The answer to the four `hasRole` queries of load `run`. A failure
        reports an error and keeps the previous role status. */
    method ReceiveRoleStatus(run: nat, answer: Option<RoleStatus>)
      requires Cancelled(run) || isLoadingRoles
      modifies this`roleStatus, this`roleError, this`isLoadingRoles
      ensures old(Cancelled(run)) ==> unchanged(this)
      ensures !old(Cancelled(run)) && answer.None? ==>
                roleError == Some(RoleErrorText) && !isLoadingRoles && roleStatus == old(roleStatus)
      ensures !old(Cancelled(run)) && answer.Some? ==>
                roleStatus == answer.value && !isLoadingRoles && roleError == old(roleError)
    {
      if Cancelled(run) {
        return;
      }
      match answer {
        case None =>
          roleError := Some(RoleErrorText);
        case Some(status) =>
          roleStatus := status;
      }
      isLoadingRoles := false;
    }

    /** The active-tab effect. */
    method SyncActiveTab()
      modifies this`activeTab
      ensures activeTab == FallbackTab(Available(), old(activeTab))
      ensures activeTab.None? <==> Available() == []
      ensures activeTab.Some? ==> IsActiveAvailable(Available(), activeTab)
    {
      var available := AvailableTabs(navigation, roleStatus);
      if available == [] {
        activeTab := None;
        return;
      }
      if !IsActiveAvailable(available, activeTab) {
        activeTab := Some(available[0].id);
      }
    }

    /** `onNavigate` / a tab button: select that tab. */
    method Navigate(tab: TabId)
      modifies this`activeTab
      ensures activeTab == Some(tab)
    {
      activeTab := Some(tab);
    }

    /** `handleLotChange` */
    method HandleLotChange(field: LotField, value: string)
      modifies lot
      ensures lot.data == WithField(old(lot.data), field, value)
    {
      lot.Change(field, value);
    }

    /** `handleLegalChange` */
    method HandleLegalChange(field: LegalField, value: string)
      modifies this`legalData
      ensures legalData == WithLegalField(old(legalData), field, value)
    {
      legalData := WithLegalField(legalData, field, value);
    }

    /** The synchronous part of a `registrarLote` click: the local checks in
        order and, when they all pass, exactly one contract call, after
        which a registration is pending. A rejection leaves the flag as it
        was: the checks before the dates return before it is set, and the
        later ones clear it again in `finally`. */
    method RegistrarLote(parseDate: string -> Option<int>) returns (click: Click)
      modifies this`isRegistering, this`calls, this`pending
      ensures var c := RegistrationCheck(contract.Some?, old(isRegistering), lot.data, legalData, parseDate);
              && (c.Rejected? ==> click == Stopped(c.reason) && calls == old(calls))
              && (c.Ready? ==> click == Sent(Snapshot(lot.data, account, legalData)) &&
                               calls == old(calls) + [c.call])
      ensures isRegistering <==> click.Sent? || old(isRegistering)
      ensures pending == if click.Sent? then Some(click.snapshot) else old(pending)
    {
      if contract.None? {
        return Stopped(NoContract);
      }
      if isRegistering {
        return Stopped(AlreadyRegistering);
      }
      var mfgMs := parseDate(lot.data.mfgDate);
      var expMs := parseDate(lot.data.expDate);
      if mfgMs.None? || expMs.None? {
        return Stopped(InvalidDates);
      }
      isRegistering := true;
      var check := PayloadCheck(lot.data, legalData, mfgMs.value, expMs.value);
      match check {
        case Rejected(reason) =>
          isRegistering := false;
          click := Stopped(reason);
        case Ready(call) =>
          calls := calls + [call];
          click := Sent(Snapshot(lot.data, account, legalData));
          pending := Some(click.snapshot);
      }
    }

    /** The continuation of a sent registration, once the transaction is
        settled: a confirmation records the lot as the click saw it and
        opens the popup; either way nothing is pending afterwards. */
    method FinishRegistration(sent: Snapshot, tx: TxOutcome) returns (outcome: RegisterOutcome)
      requires isRegistering && pending == Some(sent)
      modifies this`isRegistering, this`lastLotInfo, this`showPopup, this`pending
      ensures outcome == if tx.Confirmed? then Registered else TxFailed
      ensures tx.Confirmed? ==>
                lastLotInfo == Some(LotInfo(sent.lot.medicineName, sent.lot.seriesCode, sent.lot.expDate,
                                            sent.account, tx.hash, sent.lot.quantity, sent.legal)) && showPopup
      ensures tx.Failed? ==> lastLotInfo == old(lastLotInfo) && showPopup == old(showPopup)
      ensures !isRegistering && pending == None
    {
      match tx {
        case Confirmed(hash) =>
          lastLotInfo := Some(LotInfo(sent.lot.medicineName, sent.lot.seriesCode, sent.lot.expDate,
                                      sent.account, hash, sent.lot.quantity, sent.legal));
          showPopup := true;
          outcome := Registered;
        case Failed(_) =>
          outcome := TxFailed;
      }
      isRegistering := false;
      pending := None;
    }
  }

  /** A second click while a registration is pending changes nothing and
      makes no call. */
  method DoubleClickIgnored(app: App, parseDate: string -> Option<int>) returns (first: Click, second: Click)
    modifies app
    ensures first.Sent? ==> second == Stopped(AlreadyRegistering)
    ensures first.Sent? ==> |app.calls| == |old(app.calls)| + 1
  {
    first := app.RegistrarLote(parseDate);
    second := app.RegistrarLote(parseDate);
  }

  /** A whole `registrarLote` click: the synchronous checks and, when the
      call was sent, its continuation once the transaction settles. */
  method ClickAndSettle(app: App, parseDate: string -> Option<int>, tx: TxOutcome) returns (outcome: RegisterOutcome)
    modifies app
    ensures var c := RegistrationCheck(old(app.contract.Some?), old(app.isRegistering), app.lot.data,
                                       old(app.legalData), parseDate);
            && (c.Rejected? ==> outcome == c.reason && app.calls == old(app.calls))
            && (c.Ready? ==> app.calls == old(app.calls) + [c.call] && !app.isRegistering &&
                             outcome == (if tx.Confirmed? then Registered else TxFailed))
  {
    var click := app.RegistrarLote(parseDate);
    match click {
      case Stopped(reason) =>
        outcome := reason;
      case Sent(snapshot) =>
        outcome := app.FinishRegistration(snapshot, tx);
    }
  }

  /** A second connect click while the wallet is still being asked does not
      ask it again. */
  method DoubleConnectIgnored(app: App) returns (first: bool, second: bool)
    modifies app
    ensures first <==> !old(app.isConnecting)
    ensures !second && app.isConnecting
  {
    first := app.BeginConnect();
    second := app.BeginConnect();
  }

  /** Switching accounts when the new account's role queries fail: the
      error is shown, but the previous account's role status, and with it
      its tabs, stays in force for the new account. */
  method FailedSwitchKeepsRoles(app: App, next: string) returns (run: Option<nat>)
    requires app.contract.Some? && next != ""
    modifies app
    ensures app.account == next && app.roleError == Some(RoleErrorText) && !app.isLoadingRoles
    ensures app.roleStatus == old(app.roleStatus) && app.Available() == old(app.Available())
  {
    app.OnAccountsChanged(AccountList([next]));
    run := app.RoleEffect();
    var proceed := app.ReceiveRoleHashes(run.value, None);
  }
}
