/**
 * The client list page (src/pages/Clients.tsx): a list of client records seeded with four
 * entries, and a dialog whose validated submission appends one record whose id is "CLI"
 * followed by the new list length, zero-padded to three digits.
 */
module ClientsPage {
  import opened Common

  /** A client record; `id` and `phone` are optional in the schema. */
  datatype Client = Client(
    id: Option<string>,
    companyName: string,
    contactPerson: string,
    email: string,
    phone: Option<string>)

  /**
   * The zod schema. The email rule belongs to zod and is not modelled: it is passed in
   * as `isEmail`. `id` and `phone` accept anything, including nothing.
   */
  predicate SchemaValid(c: Client, isEmail: string -> bool) {
    |c.companyName| >= 2 && |c.contactPerson| >= 2 && isEmail(c.email)
  }

  /** The optional `id` and `phone` never decide whether a record passes the schema. */
  lemma SchemaIgnoresIdAndPhone(c: Client, isEmail: string -> bool, id: Option<string>, phone: Option<string>)
    ensures SchemaValid(c.(id := id, phone := phone), isEmail) == SchemaValid(c, isEmail)
  {
  }

  /** The form's `defaultValues`, which `form.reset()` restores. */
  const DefaultValues: Client := Client(None, "", "", "", Some(""))

  const InitialClients: seq<Client> := [
    Client(Some("CLI001"), "Innovate Corp", "John Doe", "john.doe@innovate.com", Some("123-456-7890")),
    Client(Some("CLI002"), "Synergy Solutions", "Jane Smith", "jane.smith@synergy.com", Some("234-567-8901")),
    Client(Some("CLI003"), "QuantumLeap Inc.", "Peter Jones", "peter.jones@quantum.com", Some("345-678-9012")),
    Client(Some("CLI004"), "Apex Industries", "Mary Johnson", "mary.j@apex.com", Some("456-789-0123"))
  ]

  // ---------------------------------------------------------------- decimal numerals

  predicate AllDigits(s: string) {
    forall i :: 0 <= i < |s| ==> IsDigit(s[i])
  }

  function DigitChar(d: nat): (c: char)
    requires d < 10
    ensures IsDigit(c)
  {
    (48 + d) as char
  }

  function DigitValue(c: char): (d: nat)
    requires IsDigit(c)
    ensures d < 10
  {
    (c as int) - 48
  }

  /**
   * `String(n)` for an array length (at most 2^32, far below the 10^21 where JavaScript
   * switches to exponent form): its decimal numeral, without leading zeros.
   */
  function Decimal(n: nat): (s: string)
    ensures |s| >= 1 && AllDigits(s)
    ensures s[0] == '0' ==> n == 0
    decreases n
  {
    if n < 10 then [DigitChar(n)] else Decimal(n / 10) + [DigitChar(n % 10)]
  }

  /** The value of a numeral; leading zeros are allowed. */
  function ParseDecimal(s: string): nat
    requires AllDigits(s)
    decreases |s|
  {
    if s == [] then 0 else ParseDecimal(s[..|s| - 1]) * 10 + DigitValue(s[|s| - 1])
  }

  lemma {:induction false} DecimalRoundTrip(n: nat)
    ensures ParseDecimal(Decimal(n)) == n
    decreases n
  {
    var s := Decimal(n);
    if n >= 10 {
      DecimalRoundTrip(n / 10);
      assert s[..|s| - 1] == Decimal(n / 10);
    }
  }

  function Pow10(k: nat): (p: nat)
    ensures p >= 1
  {
    if k == 0 then 1 else 10 * Pow10(k - 1)
  }

  lemma {:induction false} Pow10Monotone(a: nat, b: nat)
    requires a <= b
    ensures Pow10(a) <= Pow10(b)
    decreases b
  {
    if a < b {
      Pow10Monotone(a, b - 1);
    }
  }

  /** The numeral of `n` has `k` digits exactly when 10^(k-1) <= n < 10^k (or n is 0 and k is 1). */
  lemma {:induction false} DecimalLength(n: nat)
    ensures n < Pow10(|Decimal(n)|)
    ensures n >= 10 ==> Pow10(|Decimal(n)| - 1) <= n
    decreases n
  {
    if n >= 10 {
      var k := |Decimal(n / 10)|;
      DecimalLength(n / 10);
      assert |Decimal(n)| == k + 1;
      assert Pow10(k + 1) == 10 * Pow10(k);
      if n / 10 >= 10 {
        assert Pow10(k) == 10 * Pow10(k - 1);
      }
    }
  }

  function Repeat(c: char, k: nat): (r: string)
    ensures |r| == k && forall i :: 0 <= i < k ==> r[i] == c
  {
    seq(k, _ => c)
  }

  /** `String.prototype.padStart` with a one-character pad: never truncates. */
  function PadStart(s: string, width: nat, pad: char): (r: string)
    ensures |r| == if |s| >= width then |s| else width
    ensures r[|r| - |s|..] == s
    ensures forall i :: 0 <= i < |r| - |s| ==> r[i] == pad
  {
    if |s| >= width then s else Repeat(pad, width - |s|) + s
  }

  /** Leading zeros do not change a numeral's value. */
  lemma {:induction false} LeadingZeros(k: nat, s: string)
    requires AllDigits(s)
    ensures AllDigits(Repeat('0', k) + s)
    ensures ParseDecimal(Repeat('0', k) + s) == ParseDecimal(s)
    decreases |s| + k
  {
    var z := Repeat('0', k);
    if s == [] {
      assert z + s == z;
      if k > 0 {
        assert z[..k - 1] == Repeat('0', k - 1);
        LeadingZeros(k - 1, []);
        assert Repeat('0', k - 1) + [] == Repeat('0', k - 1);
      }
    } else {
      var init := s[..|s| - 1];
      LeadingZeros(k, init);
      assert (z + s)[..|z + s| - 1] == z + init;
    }
  }

  // ---------------------------------------------------------------- client ids

  /** The id `onSubmit` gives the client that becomes number `n` in the list. */
  function ClientId(n: nat): (id: string)
    ensures |id| >= 6 && id[..3] == "CLI" && AllDigits(id[3..])
  {
    var digits := PadStart(Decimal(n), 3, '0');
    assert digits == Decimal(n) || digits == Repeat('0', 3 - |Decimal(n)|) + Decimal(n);
    "CLI" + digits
  }

  /** Reads back the number of a "CLI" id. */
  function ParseClientId(id: string): Option<nat> {
    if |id| > 3 && id[..3] == "CLI" && AllDigits(id[3..]) then Some(ParseDecimal(id[3..])) else None
  }

  lemma ClientIdRoundTrip(n: nat)
    ensures ParseClientId(ClientId(n)) == Some(n)
  {
    var d := Decimal(n);
    var id := ClientId(n);
    assert id[3..] == PadStart(d, 3, '0');
    DecimalRoundTrip(n);
    if |d| < 3 {
      LeadingZeros(3 - |d|, d);
    }
  }

  /** Different list positions get different ids: the zero padding loses nothing. */
  lemma ClientIdInjective(a: nat, b: nat)
    ensures ClientId(a) == ClientId(b) <==> a == b
  {
    ClientIdRoundTrip(a);
    ClientIdRoundTrip(b);
  }

  /** Ids have exactly six characters up to the 999th client, and more from then on. */
  lemma ClientIdWidth(n: nat)
    ensures |ClientId(n)| == 6 <==> n < 1000
    ensures n >= 1000 ==> ClientId(n) == "CLI" + Decimal(n)
  {
    var k := |Decimal(n)|;
    DecimalLength(n);
    assert Pow10(3) == 1000;
    if k <= 3 {
      Pow10Monotone(k, 3);
    } else {
      Pow10Monotone(3, k - 1);
    }
  }

  lemma ClientIdOneDigit(n: nat)
    requires n < 10
    ensures ClientId(n) == "CLI00" + [DigitChar(n)]
  {
  }

  /** Padding to width three for small numbers. */
  lemma ClientIdExamples()
    ensures ClientId(1) == "CLI001"
    ensures ClientId(5) == "CLI005"
  {
    ClientIdOneDigit(1);
    ClientIdOneDigit(5);
  }

  /** No truncation past width three: the 1000th client gets a seven-character id. */
  lemma ClientIdWide()
    ensures ClientId(1000) == "CLI1000"
  {
    assert Decimal(1) == "1";
    assert Decimal(10) == "10";
    assert Decimal(100) == "100";
    assert Decimal(1000) == "1000";
  }

  /** The list's ids are CLI001, CLI002, ... in list order. */
  predicate NumberedInOrder(clients: seq<Client>) {
    forall i :: 0 <= i < |clients| ==> clients[i].id == Some(ClientId(i + 1))
  }

  lemma NumberedIdsDistinct(clients: seq<Client>)
    requires NumberedInOrder(clients)
    ensures forall i, j :: 0 <= i < j < |clients| ==> clients[i].id != clients[j].id
  {
    forall i, j | 0 <= i < j < |clients| ensures clients[i].id != clients[j].id {
      IdsDiffer(clients, i, j);
    }
  }

  lemma IdsDiffer(clients: seq<Client>, i: nat, j: nat)
    requires NumberedInOrder(clients) && i < j < |clients|
    ensures clients[i].id != clients[j].id
  {
    ClientIdInjective(i + 1, j + 1);
  }

  /** The next id is not in use yet. */
  lemma NextIdFresh(clients: seq<Client>)
    requires NumberedInOrder(clients)
    ensures forall c :: c in clients ==> c.id != Some(ClientId(|clients| + 1))
  {
    forall c | c in clients ensures c.id != Some(ClientId(|clients| + 1)) {
      var i :| 0 <= i < |clients| && clients[i] == c;
      IdBelowNext(clients, i);
    }
  }

  lemma IdBelowNext(clients: seq<Client>, i: nat)
    requires NumberedInOrder(clients) && i < |clients|
    ensures clients[i].id != Some(ClientId(|clients| + 1))
  {
    ClientIdInjective(i + 1, |clients| + 1);
  }

  lemma SeedNumbered()
    ensures NumberedInOrder(InitialClients)
  {
    forall i | 0 <= i < |InitialClients| ensures InitialClients[i].id == Some(ClientId(i + 1)) {
      ClientIdOneDigit(i + 1);
      assert "CLI00" + [DigitChar(i + 1)] == InitialClients[i].id.value;
    }
  }

  /** The phone cell: the number, or "N/A" when there is none or it is empty; never blank. */
  function PhoneCell(phone: Option<string>): (cell: string)
    ensures cell != ""
    ensures phone.None? || phone.value == "" ==> cell == "N/A"
    ensures phone.Some? && phone.value != "" ==> cell == phone.value
  {
    match phone
    case Some(p) => if p == "" then "N/A" else p
    case None => "N/A"
  }

  /** The page's state: the list, whether the dialog is open, and the dialog's form. */
  class ClientList {
    var clients: seq<Client>
    var dialogOpen: bool
    var form: Client

    ghost predicate Valid()
      reads this
    {
      NumberedInOrder(clients)
    }

    constructor()
      ensures Valid()
      ensures clients == InitialClients && !dialogOpen && form == DefaultValues
    {
      clients := InitialClients;
      dialogOpen := false;
      form := DefaultValues;
      SeedNumbered();
    }

    /** The dialog's `onOpenChange`. */
    method SetDialogOpen(open: bool)
      requires Valid()
      modifies this
      ensures Valid()
      ensures dialogOpen == open && clients == old(clients) && form == old(form)
    {
      dialogOpen := open;
    }

    /** Typing into the dialog's four inputs; the form has no input for `id`. */
    method FillForm(companyName: string, contactPerson: string, email: string, phone: string)
      requires Valid()
      modifies this
      ensures Valid()
      ensures form == old(form).(companyName := companyName, contactPerson := contactPerson,
                                 email := email, phone := Some(phone))
      ensures clients == old(clients) && dialogOpen == old(dialogOpen)
    {
      form := form.(companyName := companyName, contactPerson := contactPerson,
                    email := email, phone := Some(phone));
    }

    /**
     * `onSubmit`, which `handleSubmit` calls with schema-valid values only: append the
     * values under a fresh id, reset the form and close the dialog.
     */
    method OnSubmit(values: Client, ghost isEmail: string -> bool)
      requires Valid() && SchemaValid(values, isEmail)
      modifies this
      ensures Valid()
      ensures clients == old(clients) + [values.(id := Some(ClientId(|old(clients)| + 1)))]
      ensures forall c :: c in old(clients) ==> c.id != clients[|clients| - 1].id
      ensures form == DefaultValues && !dialogOpen
    {
      NextIdFresh(clients);
      var newClient := values.(id := Some("CLI" + PadStart(Decimal(|clients| + 1), 3, '0')));
      clients := clients + [newClient];
      form := DefaultValues;
      dialogOpen := false;
    }

    /** `form.handleSubmit(onSubmit)`: validate the form and submit it when it passes. */
    method HandleSubmit(isEmail: string -> bool) returns (accepted: bool)
      requires Valid()
      modifies this
      ensures Valid()
      ensures accepted == SchemaValid(old(form), isEmail)
      ensures accepted ==> clients == old(clients) + [old(form).(id := Some(ClientId(|old(clients)| + 1)))]
      ensures accepted ==> form == DefaultValues && !dialogOpen
      ensures !accepted ==> clients == old(clients) && form == old(form) && dialogOpen == old(dialogOpen)
    {
      accepted := SchemaValid(form, isEmail);
      if accepted {
        OnSubmit(form, isEmail);
      }
    }
  }
}
