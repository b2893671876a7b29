/** The WhatsApp share button (components/WhatsAppButton.tsx): the client's phone is reduced to
    the international form `wa.me` expects, a message naming the client and linking the document
    is chosen by document type, and the two are put together into the link the button opens.
    `encodeURIComponent` is a parameter; `None` stands for the error it throws on text it cannot
    encode. */
module WhatsAppButton {

  import opened Common
  import opened Text

  /** The characters of the class `[\s\(\)\-]`. */
  predicate Formatting(c: char)
  {
    IsSpace(c) || c == '(' || c == ')' || c == '-'
  }

  /** `phone.replace(/[\s\(\)\-]/g, '')`. */
  function StripFormatting(s: string): (r: string)
    ensures |r| <= |s|
    ensures forall i :: 0 <= i < |r| ==> !Formatting(r[i])
  {
    if s == [] then []
    else StripFormatting(s[..|s| - 1]) + (if Formatting(s[|s| - 1]) then [] else [s[|s| - 1]])
  }

  lemma {:induction false} StripFormattingClean(s: string)
    requires forall i :: 0 <= i < |s| ==> !Formatting(s[i])
    ensures StripFormatting(s) == s
  {
    if s != [] {
      StripFormattingClean(s[..|s| - 1]);
    }
  }

  /** Only non-digits are stripped. */
  lemma {:induction false} StripFormattingDigits(s: string)
    ensures Digits(StripFormatting(s)) == Digits(s)
  {
    if s != [] {
      var init, last := s[..|s| - 1], s[|s| - 1];
      StripFormattingDigits(init);
      DigitsAppend(StripFormatting(init), if Formatting(last) then [] else [last]);
      DigitsAppend(init, [last]);
      assert init + [last] == s;
      assert Digits([last]) == Digits([last][..0]) + (if IsDigit(last) then [last] else []);
    }
  }

  /** `sanitizePhone`: empty stays empty; otherwise the formatting characters go, one leading
      '+' goes, and the country code 55 is put in front unless the number already starts
      with it. */
  function Sanitize(phone: string): (r: string)
    ensures r == "" <==> phone == ""
    ensures phone != "" ==> StartsWith(r, "55")
    ensures forall i :: 0 <= i < |r| ==> !Formatting(r[i])
  {
    if phone == "" then ""
    else
      var cleaned := StripFormatting(phone);
      var unsigned := if StartsWith(cleaned, "+") then cleaned[1..] else cleaned;
      if StartsWith(unsigned, "55") then unsigned else "55" + unsigned
  }

  /** Sanitising a sanitised phone changes nothing. */
  lemma {:induction false} SanitizeIdempotent(phone: string)
    ensures Sanitize(Sanitize(phone)) == Sanitize(phone)
  {
    var r := Sanitize(phone);
    if r != "" {
      StripFormattingClean(r);
      assert r[..1] == "5";
    }
  }

  /** No digit is lost or changed: the digits of the result are those of the input, with 55 in
      front when the country code was added. */
  lemma {:induction false} SanitizeKeepsDigits(phone: string)
    ensures Digits(Sanitize(phone)) == Digits(phone) || Digits(Sanitize(phone)) == "55" + Digits(phone)
  {
    if phone != "" {
      var cleaned := StripFormatting(phone);
      StripFormattingDigits(phone);
      var unsigned := Unsigned(cleaned);
      assert Digits(unsigned) == Digits(phone);
      if !StartsWith(unsigned, "55") {
        CountryCodeDigits(unsigned);
      }
    }
  }

  /** Dropping a leading '+' keeps the digits. */
  lemma {:induction false} Unsigned(cleaned: string) returns (unsigned: string)
    ensures unsigned == if StartsWith(cleaned, "+") then cleaned[1..] else cleaned
    ensures Digits(unsigned) == Digits(cleaned)
  {
    unsigned := cleaned;
    if StartsWith(cleaned, "+") {
      unsigned := cleaned[1..];
      assert cleaned == "+" + unsigned;
      DigitsAppend("+", unsigned);
      assert Digits("+") == Digits(""[..0]) + [];
    }
  }

  lemma {:induction false} CountryCodeDigits(u: string)
    ensures Digits("55" + u) == "55" + Digits(u)
  {
    DigitsAppend("55", u);
    DigitsOfDigits("55");
  }

  /** A number of digits without the country code gets it in front. */
  lemma {:induction false} SanitizeAddsCountryCode(d: string)
    requires d != "" && AllDigits(d) && !StartsWith(d, "55")
    ensures Sanitize(d) == "55" + d
  {
    StripDigits(d);
    assert !StartsWith(d, "+") by { assert IsDigit(d[0]); }
  }

  /** A number of digits that has the country code and a leading '+' only loses the '+'. */
  lemma {:induction false} SanitizeDropsPlus(d: string)
    requires AllDigits(d) && StartsWith(d, "55")
    ensures Sanitize("+" + d) == d
  {
    var phone := "+" + d;
    StripDigits(d);
    StripFormattingAppend("+", d);
    assert StripFormatting("+") == StripFormatting([]) + "+";
    assert phone[..1] == "+" && phone[1..] == d;
  }

  /** A string of digits has nothing to strip. */
  lemma {:induction false} StripDigits(s: string)
    requires AllDigits(s)
    ensures StripFormatting(s) == s
  {
    StripFormattingClean(s);
  }

  lemma {:induction false} StripFormattingAppend(a: string, b: string)
    ensures StripFormatting(a + b) == StripFormatting(a) + StripFormatting(b)
    decreases |b|
  {
    if b == [] {
      assert a + b == a;
    } else {
      assert (a + b)[..|a + b| - 1] == a + b[..|b| - 1];
      StripFormattingAppend(a, b[..|b| - 1]);
    }
  }

  datatype DocType = Quote | WorkOrder | Receipt

  /** `getMessage`: a greeting naming the client, a sentence for the document type, and the
      document's link at the end. */
  function Message(docType: DocType, clientName: string, docLink: string): (m: string)
    ensures StartsWith(m, "Olá " + clientName + ", ")
    ensures |docLink| <= |m| && m[|m| - |docLink|..] == docLink
  {
    var middle := match docType
      case Quote => "segue o link do seu Orçamento: "
      case WorkOrder => "segue sua Ordem de Serviço digital: "
      case Receipt => "confirmamos seu pagamento. Segue o Recibo: ";
    var m := "Olá " + clientName + ", " + middle + docLink;
    assert m[..|"Olá " + clientName + ", "|] == "Olá " + clientName + ", ";
    assert m[|m| - |docLink|..] == docLink;
    m
  }

  /** The three templates differ, so the message tells which kind of document is sent. */
  lemma MessageNamesDocument(d1: DocType, d2: DocType, clientName: string, docLink: string)
    requires d1 != d2
    ensures Message(d1, clientName, docLink) != Message(d2, clientName, docLink)
  {
    assert |Message(d1, clientName, docLink)| != |Message(d2, clientName, docLink)|;
  }

  /** What a click does: refuse a missing or blank phone, report an encoding error, or open the
      conversation link. */
  datatype Outcome = NoPhone | Failed | Open(url: string)

  /** `handleClick`. A blank phone is refused before anything is built; otherwise the link is the
      `wa.me` address of the sanitised phone with the encoded message as its text. */
  function Click(phone: string, clientName: string, docType: DocType, docLink: string,
                 encode: string -> Option<string>): (o: Outcome)
    ensures o.NoPhone? <==> Blank(phone)
    ensures !Blank(phone) ==> (o.Failed? <==> encode(Message(docType, clientName, docLink)).None?)
    ensures o.Open? ==>
      && StartsWith(o.url, "https://wa.me/55")
      && StartsWith(o.url, "https://wa.me/" + Sanitize(phone) + "?text=")
      && o.url[|"https://wa.me/" + Sanitize(phone) + "?text="|..] == encode(Message(docType, clientName, docLink)).value
  {
    TrimEmptyIffBlank(phone);
    if phone == "" || Trim(phone) == "" then NoPhone
    else
      var p := Sanitize(phone);
      var encoded := encode(Message(docType, clientName, docLink));
      if encoded.None? then Failed
      else
        var prefix := "https://wa.me/" + p + "?text=";
        UrlShape(p, prefix, encoded.value);
        Open(prefix + encoded.value)
  }

  lemma {:induction false} UrlShape(p: string, prefix: string, text: string)
    requires StartsWith(p, "55") && prefix == "https://wa.me/" + p + "?text="
    ensures StartsWith(prefix + text, "https://wa.me/55")
    ensures StartsWith(prefix + text, prefix)
    ensures (prefix + text)[|prefix|..] == text
  {
    var url := prefix + text;
    assert url[..|"https://wa.me/55"|] == "https://wa.me/" + p[..2];
    assert url[..|prefix|] == prefix;
  }
}
