/** The contract form (components/ContractModal.tsx): the CPF/CNPJ mask applied as the number is
    typed, the form's fields, and the checks made before a contract is generated. */
module ContractModal {

  import opened Common
  import opened Text

  /** The characters the mask may add. */
  predicate Separator(c: char)
  {
    c == '.' || c == '/' || c == '-'
  }

  /** Every character is a digit or one of the separators allowed by `allowed`. */
  predicate MaskedWith(s: string, allowed: char -> bool)
  {
    forall i :: 0 <= i < |s| ==> IsDigit(s[i]) || allowed(s[i])
  }

  function InsertAt(s: string, i: nat, c: char): (r: string)
    requires i <= |s|
    ensures |r| == |s| + 1 && r[i] == c
    ensures r[..i] == s[..i] && r[i + 1..] == s[i..]
  {
    s[..i] + [c] + s[i..]
  }

  /** `len` digits follow one another from position `j`. */
  predicate RunAt(s: string, j: int, len: nat)
  {
    0 <= j && j + len <= |s| && AllDigits(s[j..j + len])
  }

  /** The first position at or after `from` where `len` digits follow one another, or nothing
      when there is no such position. */
  function FirstRun(s: string, len: nat, from: nat): (r: Option<nat>)
    requires len > 0
    ensures r.Some? ==> from <= r.value && RunAt(s, r.value, len)
    ensures r.Some? ==> forall j :: from <= j < r.value ==> !RunAt(s, j, len)
    ensures r.None? ==> forall j :: from <= j ==> !RunAt(s, j, len)
    decreases |s| - from
  {
    if from + len > |s| then None
    else if AllDigits(s[from..from + len]) then Some(from)
    else FirstRun(s, len, from + 1)
  }

  /** `s.replace(/(\d{k})(\d)/, '$1' + c + '$2')`: `c` goes after the first `k` of the first
      `k + 1` consecutive digits; without such a run nothing changes. */
  function ReplaceRun(s: string, k: nat, c: char): string
  {
    match FirstRun(s, k + 1, 0)
    case None => s
    case Some(i) => InsertAt(s, i + k, c)
  }

  /** `s.replace(/(\d{k})(\d{1,2})$/, '$1' + c + '$2')`: the leftmost match ends the text, so `c`
      goes before the last two characters when the last `k + 2` are digits, else before the last
      one when the last `k + 1` are, and nothing changes otherwise. */
  function ReplaceTail(s: string, k: nat, c: char): string
  {
    if |s| >= k + 2 && AllDigits(s[|s| - k - 2..]) then InsertAt(s, |s| - 2, c)
    else if |s| >= k + 1 && AllDigits(s[|s| - k - 1..]) then InsertAt(s, |s| - 1, c)
    else s
  }

  /** `formatCpfCnpj`: the digits of the text, masked as a CPF (`000.000.000-00`) when there are
      at most 11 of them and as a CNPJ (`00.000.000/0000-00`) otherwise. */
  function FormatCpfCnpj(value: string): string
  {
    var numbers := Digits(value);
    if |numbers| <= 11 then
      ReplaceTail(ReplaceRun(ReplaceRun(numbers, 3, '.'), 3, '.'), 3, '-')
    else
      ReplaceTail(ReplaceRun(ReplaceRun(ReplaceRun(numbers, 2, '.'), 3, '.'), 3, '/'), 4, '-')
  }

  /** Inserting a non-digit leaves the digits as they were. */
  lemma {:induction false} InsertKeepsDigits(s: string, i: nat, c: char)
    requires i <= |s| && !IsDigit(c)
    ensures Digits(InsertAt(s, i, c)) == Digits(s)
  {
    DigitsAround(s[..i], s[i..], c, s, InsertAt(s, i, c));
  }

  lemma {:induction false} DigitsAround(a: string, b: string, c: char, s: string, t: string)
    requires !IsDigit(c) && s == a + b && t == a + [c] + b
    ensures Digits(t) == Digits(s)
  {
    NonDigitHasNoDigits(c);
    DigitsAppend(a + [c], b);
    DigitsAppend(a, [c]);
    DigitsAppend(a, b);
  }

  lemma NonDigitHasNoDigits(c: char)
    requires !IsDigit(c)
    ensures Digits([c]) == []
  {
    assert [c][..0] == [];
  }

  lemma {:induction false} ReplaceRunKeepsDigits(s: string, k: nat, c: char)
    requires !IsDigit(c)
    ensures Digits(ReplaceRun(s, k, c)) == Digits(s)
  {
    var run := FirstRun(s, k + 1, 0);
    if run.Some? {
      var j := run.value + k;
      assert j <= |s|;
      InsertKeepsDigits(s, j, c);
      assert ReplaceRun(s, k, c) == InsertAt(s, j, c);
    }
  }

  lemma {:induction false} ReplaceTailKeepsDigits(s: string, k: nat, c: char)
    requires !IsDigit(c)
    ensures Digits(ReplaceTail(s, k, c)) == Digits(s)
  {
    if |s| >= k + 2 && AllDigits(s[|s| - k - 2..]) {
      InsertKeepsDigits(s, |s| - 2, c);
    } else if |s| >= k + 1 && AllDigits(s[|s| - k - 1..]) {
      InsertKeepsDigits(s, |s| - 1, c);
    }
  }

  /** Removing the non-digits from a masked number gives exactly the digits typed, in order. */
  lemma FormatKeepsDigits(value: string)
    ensures Digits(FormatCpfCnpj(value)) == Digits(value)
  {
    var n := Digits(value);
    DigitsOfDigits(n);
    if |n| <= 11 {
      var s1 := ReplaceRun(n, 3, '.');
      var s2 := ReplaceRun(s1, 3, '.');
      ReplaceRunKeepsDigits(n, 3, '.');
      ReplaceRunKeepsDigits(s1, 3, '.');
      ReplaceTailKeepsDigits(s2, 3, '-');
    } else {
      var s1 := ReplaceRun(n, 2, '.');
      var s2 := ReplaceRun(s1, 3, '.');
      var s3 := ReplaceRun(s2, 3, '/');
      ReplaceRunKeepsDigits(n, 2, '.');
      ReplaceRunKeepsDigits(s1, 3, '.');
      ReplaceRunKeepsDigits(s2, 3, '/');
      ReplaceTailKeepsDigits(s3, 4, '-');
    }
  }

  /** Masking a masked number changes nothing, since the mask starts from the digits alone. */
  lemma FormatIdempotent(value: string)
    ensures FormatCpfCnpj(FormatCpfCnpj(value)) == FormatCpfCnpj(value)
  {
    FormatKeepsDigits(value);
  }

  predicate CpfSeparator(c: char)
  {
    c == '.' || c == '-'
  }

  lemma InsertKeepsMask(s: string, i: nat, c: char, allowed: char -> bool)
    requires i <= |s| && MaskedWith(s, allowed) && allowed(c)
    ensures MaskedWith(InsertAt(s, i, c), allowed)
  {
    var r := InsertAt(s, i, c);
    forall j | 0 <= j < |r| ensures IsDigit(r[j]) || allowed(r[j]) {
      if j < i {
        assert r[j] == r[..i][j] == s[..i][j];
      } else if j > i {
        assert r[j] == r[i + 1..][j - i - 1] == s[i..][j - i - 1];
      }
    }
  }

  lemma ReplaceRunKeepsMask(s: string, k: nat, c: char, allowed: char -> bool)
    requires MaskedWith(s, allowed) && allowed(c)
    ensures MaskedWith(ReplaceRun(s, k, c), allowed)
  {
    match FirstRun(s, k + 1, 0)
    case None =>
    case Some(i) => InsertKeepsMask(s, i + k, c, allowed);
  }

  lemma ReplaceTailKeepsMask(s: string, k: nat, c: char, allowed: char -> bool)
    requires MaskedWith(s, allowed) && allowed(c)
    ensures MaskedWith(ReplaceTail(s, k, c), allowed)
  {
    if |s| >= k + 2 && AllDigits(s[|s| - k - 2..]) {
      InsertKeepsMask(s, |s| - 2, c, allowed);
    } else if |s| >= k + 1 && AllDigits(s[|s| - k - 1..]) {
      InsertKeepsMask(s, |s| - 1, c, allowed);
    }
  }

  /** The mask only ever adds '.', '/' and '-'; a CPF (at most 11 digits) gets no '/'. */
  lemma FormatAddsOnlySeparators(value: string)
    ensures MaskedWith(FormatCpfCnpj(value), Separator)
    ensures |Digits(value)| <= 11 ==> MaskedWith(FormatCpfCnpj(value), CpfSeparator)
  {
    var n := Digits(value);
    if |n| <= 11 {
      var s1 := ReplaceRun(n, 3, '.');
      var s2 := ReplaceRun(s1, 3, '.');
      ReplaceRunKeepsMask(n, 3, '.', CpfSeparator);
      ReplaceRunKeepsMask(s1, 3, '.', CpfSeparator);
      ReplaceTailKeepsMask(s2, 3, '-', CpfSeparator);
      ReplaceRunKeepsMask(n, 3, '.', Separator);
      ReplaceRunKeepsMask(s1, 3, '.', Separator);
      ReplaceTailKeepsMask(s2, 3, '-', Separator);
    } else {
      var s1 := ReplaceRun(n, 2, '.');
      var s2 := ReplaceRun(s1, 3, '.');
      var s3 := ReplaceRun(s2, 3, '/');
      ReplaceRunKeepsMask(n, 2, '.', Separator);
      ReplaceRunKeepsMask(s1, 3, '.', Separator);
      ReplaceRunKeepsMask(s2, 3, '/', Separator);
      ReplaceTailKeepsMask(s3, 4, '-', Separator);
    }
  }

  /** A run of digits cannot start within `len` characters before a non-digit at `j`, so the
      search may skip to just after it. */
  lemma {:induction false} FirstRunSkip(s: string, len: nat, j: nat, q: nat)
    requires len > 0 && j < |s| && !IsDigit(s[j])
    requires q <= j + 1 <= q + len
    ensures FirstRun(s, len, q) == FirstRun(s, len, j + 1)
    decreases j + 1 - q
  {
    if q < j + 1 && q + len <= |s| {
      assert s[q..q + len][j - q] == s[j];
      FirstRunSkip(s, len, j, q + 1);
    }
  }

  /** A run of digits at the very start is found there. */
  lemma RunAtStart(d: string, k: nat, c: char)
    requires AllDigits(d) && |d| >= k + 1
    ensures ReplaceRun(d, k, c) == d[..k] + [c] + d[k..]
  {
    assert AllDigits(d[0..k + 1]);
  }

  /** With at least 7 digits, the CPF mask puts a '.' after the third and the sixth digit. */
  lemma CpfDots(d: string)
    requires AllDigits(d) && |d| >= 7
    ensures ReplaceRun(ReplaceRun(d, 3, '.'), 3, '.') == d[..3] + "." + d[3..6] + "." + d[6..]
  {
    RunAtStart(d, 3, '.');
    var s1 := d[..3] + "." + d[3..];
    assert s1[3] == '.';
    FirstRunSkip(s1, 4, 3, 0);
    assert s1[4..8] == d[3..7];
    assert FirstRun(s1, 4, 4) == Some(4);
    assert s1[..7] == d[..3] + "." + d[3..6];
    assert s1[7..] == d[6..];
  }

  /** When the text ends in `k + 2` digits, the tail mask goes before the last two. */
  lemma TailOfTwo(s: string, k: nat, c: char)
    requires |s| >= k + 2 && AllDigits(s[|s| - k - 2..])
    ensures ReplaceTail(s, k, c) == s[..|s| - 2] + [c] + s[|s| - 2..]
  {
  }

  /** Eleven digits are masked as `ddd.ddd.ddd-dd`. */
  lemma {:induction false} CpfShape(value: string)
    requires |Digits(value)| == 11
    ensures var d := Digits(value);
      FormatCpfCnpj(value) == d[..3] + "." + d[3..6] + "." + d[6..9] + "-" + d[9..]
  {
    var d := Digits(value);
    CpfDots(d);
    var s2 := d[..3] + "." + d[3..6] + "." + d[6..];
    assert s2[8..] == d[6..];
    TailOfTwo(s2, 3, '-');
    assert s2[..11] == d[..3] + "." + d[3..6] + "." + d[6..9];
    assert s2[11..] == d[9..];
  }

  /** With at least 9 digits, the CNPJ mask puts '.' after the second and fifth digit and '/'
      after the eighth. */
  lemma {:induction false} CnpjSeparators(d: string)
    requires AllDigits(d) && |d| >= 9
    ensures ReplaceRun(ReplaceRun(ReplaceRun(d, 2, '.'), 3, '.'), 3, '/')
            == d[..2] + "." + d[2..5] + "." + d[5..8] + "/" + d[8..]
  {
    CnpjDots(d);
    CnpjSlash(d);
  }

  lemma {:induction false} CnpjDots(d: string)
    requires AllDigits(d) && |d| >= 9
    ensures ReplaceRun(ReplaceRun(d, 2, '.'), 3, '.') == d[..2] + "." + d[2..5] + "." + d[5..]
  {
    RunAtStart(d, 2, '.');
    var s1 := d[..2] + "." + d[2..];
    assert s1[2] == '.';
    FirstRunSkip(s1, 4, 2, 0);
    assert s1[3..7] == d[2..6];
    assert FirstRun(s1, 4, 3) == Some(3);
    assert s1[..6] == d[..2] + "." + d[2..5];
    assert s1[6..] == d[5..];
  }

  lemma {:induction false} CnpjSlash(d: string)
    requires AllDigits(d) && |d| >= 9
    ensures ReplaceRun(d[..2] + "." + d[2..5] + "." + d[5..], 3, '/')
            == d[..2] + "." + d[2..5] + "." + d[5..8] + "/" + d[8..]
  {
    var s2 := d[..2] + "." + d[2..5] + "." + d[5..];
    assert s2[2] == '.' && s2[6] == '.';
    FirstRunSkip(s2, 4, 2, 0);
    FirstRunSkip(s2, 4, 6, 3);
    assert s2[7..11] == d[5..9];
    assert FirstRun(s2, 4, 7) == Some(7);
    assert s2[..10] == d[..2] + "." + d[2..5] + "." + d[5..8];
    assert s2[10..] == d[8..];
  }

  lemma CnpjDash(d: string)
    requires AllDigits(d) && |d| == 14
    ensures ReplaceTail(d[..2] + "." + d[2..5] + "." + d[5..8] + "/" + d[8..], 4, '-')
            == d[..2] + "." + d[2..5] + "." + d[5..8] + "/" + d[8..12] + "-" + d[12..]
  {
    var s3 := d[..2] + "." + d[2..5] + "." + d[5..8] + "/" + d[8..];
    assert s3[11..] == d[8..];
    TailOfTwo(s3, 4, '-');
    assert s3[..15] == d[..2] + "." + d[2..5] + "." + d[5..8] + "/" + d[8..12];
    assert s3[15..] == d[12..];
  }

  /** Fourteen digits are masked as `dd.ddd.ddd/dddd-dd`. */
  lemma CnpjShape(value: string)
    requires |Digits(value)| == 14
    ensures var d := Digits(value);
      FormatCpfCnpj(value) == d[..2] + "." + d[2..5] + "." + d[5..8] + "/" + d[8..12] + "-" + d[12..]
  {
    CnpjSeparators(Digits(value));
    CnpjDash(Digits(value));
  }

  /** The mask has a '/' exactly when the number has more than 11 digits: CPFs never get one,
      and every longer number is masked as a CNPJ with '/' after its eighth digit. */
  lemma {:induction false} SlashMeansCnpj(value: string)
    ensures '/' in FormatCpfCnpj(value) <==> |Digits(value)| > 11
  {
    var d := Digits(value);
    FormatAddsOnlySeparators(value);
    var r := FormatCpfCnpj(value);
    if |d| > 11 {
      CnpjSeparators(d);
      var s3 := d[..2] + "." + d[2..5] + "." + d[5..8] + "/" + d[8..];
      assert s3[10] == '/';
      assert r[10] == '/';
    } else {
      assert forall i :: 0 <= i < |r| ==> r[i] != '/';
    }
  }

  datatype PaymentMethod = Pix | Card | Cash | BankTransfer

  datatype ContractData = ContractData(
    clientName: string, clientCpfCnpj: string, clientRg: string, clientAddress: string,
    startDate: string, deliveryDate: string, paymentMethod: PaymentMethod, paymentDetails: string,
    witness1Name: string, witness1Cpf: string, witness2Name: string, witness2Cpf: string)

  /** Why a submission is refused, in the order the checks run. */
  datatype SubmitError = MissingParty | MissingDates | MissingPayment

  /** `handleSubmit`: the client's CPF/CNPJ, RG and address, then both dates, then the payment
      details must be non-empty; the first check that fails refuses the submission, and a form
      that passes all three is handed over whole. Witnesses are optional. */
  function Validate(f: ContractData): (r: Result<ContractData, SubmitError>)
    ensures r.Ok? <==>
      f.clientCpfCnpj != "" && f.clientRg != "" && f.clientAddress != ""
      && f.startDate != "" && f.deliveryDate != "" && f.paymentDetails != ""
    ensures r.Ok? ==> r.value == f
    ensures r.Err? && r.error == MissingParty <==>
      f.clientCpfCnpj == "" || f.clientRg == "" || f.clientAddress == ""
    ensures r.Err? && r.error == MissingDates <==>
      f.clientCpfCnpj != "" && f.clientRg != "" && f.clientAddress != ""
      && (f.startDate == "" || f.deliveryDate == "")
    ensures r.Err? && r.error == MissingPayment <==>
      f.clientCpfCnpj != "" && f.clientRg != "" && f.clientAddress != ""
      && f.startDate != "" && f.deliveryDate != "" && f.paymentDetails == ""
  {
    if f.clientCpfCnpj == "" || f.clientRg == "" || f.clientAddress == "" then Err(MissingParty)
    else if f.startDate == "" || f.deliveryDate == "" then Err(MissingDates)
    else if f.paymentDetails == "" then Err(MissingPayment)
    else Ok(f)
  }

  /** The plain text fields of the form. */
  datatype TextField =
    ClientName | ClientRg | ClientAddress | StartDate | DeliveryDate | PaymentDetails
    | Witness1Name | Witness2Name

  function WithText(f: ContractData, field: TextField, text: string): ContractData
  {
    match field
    case ClientName => f.(clientName := text)
    case ClientRg => f.(clientRg := text)
    case ClientAddress => f.(clientAddress := text)
    case StartDate => f.(startDate := text)
    case DeliveryDate => f.(deliveryDate := text)
    case PaymentDetails => f.(paymentDetails := text)
    case Witness1Name => f.(witness1Name := text)
    case Witness2Name => f.(witness2Name := text)
  }

  /** Whatever the witnesses' fields hold, a form is accepted or refused for the same reason. */
  lemma WitnessesOptional(f: ContractData, name1: string, cpf1: string, name2: string, cpf2: string)
    ensures var g := f.(witness1Name := name1, witness1Cpf := cpf1, witness2Name := name2, witness2Cpf := cpf2);
      Validate(g).Ok? == Validate(f).Ok?
      && (Validate(f).Err? ==> Validate(g).Err? && Validate(g).error == Validate(f).error)
  {
  }

  class ContractForm {
    var formData: ContractData

    /** A new form: the quote's client name and address (empty when the quote has none), Pix as
        payment method, everything else empty. */
    constructor (clientName: string, clientAddress: Option<string>)
      ensures formData == ContractData(clientName, "", "", if clientAddress.Some? then clientAddress.value else "",
                                       "", "", Pix, "", "", "", "", "")
    {
      formData := ContractData(clientName, "", "", if clientAddress.Some? then clientAddress.value else "",
                               "", "", Pix, "", "", "", "", "");
    }

    /** `handleCpfCnpjChange`: the typed text is stored masked. */
    method ChangeCpfCnpj(text: string)
      modifies this
      ensures formData == old(formData).(clientCpfCnpj := FormatCpfCnpj(text))
    {
      var formatted := FormatCpfCnpj(text);
      formData := formData.(clientCpfCnpj := formatted);
    }

    /** `handleWitnessCpfChange`: the first witness's CPF for witness 1, the second's otherwise. */
    method ChangeWitnessCpf(which: int, text: string)
      modifies this
      ensures which == 1 ==> formData == old(formData).(witness1Cpf := FormatCpfCnpj(text))
      ensures which != 1 ==> formData == old(formData).(witness2Cpf := FormatCpfCnpj(text))
    {
      var formatted := FormatCpfCnpj(text);
      if which == 1 {
        formData := formData.(witness1Cpf := formatted);
      } else {
        formData := formData.(witness2Cpf := formatted);
      }
    }

    /** The inputs that store their text as typed. */
    method EditText(field: TextField, text: string)
      modifies this
      ensures formData == WithText(old(formData), field, text)
    {
      formData := WithText(formData, field, text);
    }

    method SetPaymentMethod(m: PaymentMethod)
      modifies this
      ensures formData == old(formData).(paymentMethod := m)
    {
      formData := formData.(paymentMethod := m);
    }
  }

  /** A form just opened is refused for its missing CPF/CNPJ. */
  lemma NewFormRefused(clientName: string, clientAddress: Option<string>)
    ensures var f := ContractData(clientName, "", "", if clientAddress.Some? then clientAddress.value else "",
                                  "", "", Pix, "", "", "", "", "");
      Validate(f).Err? && Validate(f).error == MissingParty
  {
  }
}
