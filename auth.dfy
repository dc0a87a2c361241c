/** The login and sign-up screen: the WhatsApp phone mask, the front-end
    checks run before any call to the auth service, and the translation of
    the service's error messages. */
module Auth {
  import opened Common

  predicate IsDigit(c: char) {
    '0' <= c <= '9'
  }

  /** `replace(/\D/g, "")`: the ASCII digits of `s`, in order. */
  function Digits(s: string): (r: string)
    ensures |r| <= |s|
    ensures forall i :: 0 <= i < |r| ==> IsDigit(r[i])
  {
    if s == [] then []
    else (if IsDigit(s[0]) then [s[0]] else []) + Digits(s[1..])
  }

  /** `handleTelefoneChange`: keep the digits, at most 11, then wrap the
      first two in parentheses and put a dash after the seventh. */
  function MaskPhone(input: string): string {
    var v0 := Digits(input);
    var v1 := if |v0| > 11 then v0[..11] else v0;
    var v2 := if |v1| > 2 then "(" + v1[..2] + ") " + v1[2..] else v1;
    if |v2| > 10 then v2[..10] + "-" + v2[10..] else v2
  }

  /** The first `min(11, n)` digits of the input. */
  function KeptDigits(input: string): string {
    var d := Digits(input);
    if |d| > 11 then d[..11] else d
  }

  // ---------------------------------------------------------------------

  lemma {:induction false} DigitsAppend(a: string, b: string)
    ensures Digits(a + b) == Digits(a) + Digits(b)
  {
    if a == [] {
      assert a + b == b;
    } else {
      assert (a + b)[0] == a[0];
      assert (a + b)[1..] == a[1..] + b;
      DigitsAppend(a[1..], b);
    }
  }

  lemma {:induction false} DigitsOfDigits(s: string)
    requires forall i :: 0 <= i < |s| ==> IsDigit(s[i])
    ensures Digits(s) == s
  {
    if s != [] {
      DigitsOfDigits(s[1..]);
      assert s == [s[0]] + s[1..];
    }
  }

  lemma DigitsOfPunctuation()
    ensures Digits("(") == [] && Digits(") ") == [] && Digits("-") == []
  {
    assert Digits("(") == [] + Digits([]);
    assert ") "[1..] == " ";
    assert Digits(" ") == [] + Digits([]);
    assert Digits(") ") == [] + Digits(" ");
    assert Digits("-") == [] + Digits([]);
  }

  lemma AreaCodeKeepsDigits(v: string)
    requires |v| > 2 && forall i :: 0 <= i < |v| ==> IsDigit(v[i])
    ensures Digits("(" + v[..2] + ") " + v[2..]) == v
  {
    DigitsOfPunctuation();
    DigitsOfDigits(v[..2]);
    DigitsOfDigits(v[2..]);
    DigitsAppend("(", v[..2]);
    DigitsAppend("(" + v[..2], ") ");
    DigitsAppend("(" + v[..2] + ") ", v[2..]);
    assert v[..2] + v[2..] == v;
  }

  lemma DigitsDropsMark(a: string, c: char, b: string)
    requires !IsDigit(c)
    ensures Digits(a + [c] + b) == Digits(a) + Digits(b)
  {
    assert Digits([c]) == [] by {
      assert [c][1..] == [];
    }
    DigitsAppend(a, [c]);
    DigitsAppend(a + [c], b);
  }

  lemma DashKeepsDigits(w: string)
    requires |w| > 10
    ensures Digits(w[..10] + "-" + w[10..]) == Digits(w)
  {
    DigitsDropsMark(w[..10], '-', w[10..]);
    DigitsAppend(w[..10], w[10..]);
    assert w[..10] + w[10..] == w;
  }

  /** The mask keeps exactly the first (at most 11) digits typed, and adds
      no digit of its own. */
  lemma MaskKeepsDigits(input: string)
    ensures Digits(MaskPhone(input)) == KeptDigits(input)
  {
    var v1 := KeptDigits(input);
    var v2 := if |v1| > 2 then "(" + v1[..2] + ") " + v1[2..] else v1;
    if |v1| > 2 {
      AreaCodeKeepsDigits(v1);
    } else {
      DigitsOfDigits(v1);
    }
    if |v2| > 10 {
      DashKeepsDigits(v2);
    }
  }

  /** `(DD) DDDDD-DDDD` is the longest the field can get. */
  lemma MaskLength(input: string)
    ensures |MaskPhone(input)| <= 15
    ensures |MaskPhone(input)| == |KeptDigits(input)| + (if |KeptDigits(input)| > 7 then 4 else if |KeptDigits(input)| > 2 then 3 else 0)
  {
  }

  /** Up to two digits are shown as typed; from three on they start with the
      area code in parentheses; from eight on a dash follows the seventh. */
  lemma MaskShape(input: string)
    ensures var v := KeptDigits(input);
      var r := MaskPhone(input);
      && (|v| <= 2 ==> r == v)
      && (|v| > 2 ==> r[..5] == "(" + v[..2] + ") " && r[5..5 + |v| - 2 - (if |v| > 7 then |v| - 7 else 0)] == v[2..Min(|v|, 7)])
      && (|v| > 7 ==> r[10] == '-' && r[11..] == v[7..])
      && (|v| <= 7 ==> '-' !in r)
  {
    var v := KeptDigits(input);
    if |v| > 2 {
      var v2 := "(" + v[..2] + ") " + v[2..];
      assert v2[..5] == "(" + v[..2] + ") ";
      if |v| <= 7 {
        forall i | 0 <= i < |v2| ensures v2[i] != '-' {
          if i >= 5 {
            assert v2[i] == v[i - 3];
          }
        }
      }
    } else {
      assert forall i :: 0 <= i < |v| ==> v[i] != '-';
    }
  }

  /** Masking an already masked number changes nothing. */
  lemma MaskIdempotent(input: string)
    ensures MaskPhone(MaskPhone(input)) == MaskPhone(input)
  {
    MaskKeepsDigits(input);
    assert KeptDigits(MaskPhone(input)) == KeptDigits(input);
  }

  /** Typing at least ten digits into the field leaves at least ten in it. */
  lemma MaskedPhoneKeepsTenDigits(input: string)
    requires |Digits(input)| >= 10
    ensures |Digits(MaskPhone(input))| >= 10
  {
    MaskKeepsDigits(input);
  }

  // ---------------------------------------------------------------------
  // Validation

  /** The characters `String.prototype.trim` removes: white space and line
      terminators. */
  predicate IsJsSpace(c: char) {
    c == ' ' || c == '\t' || c == '\n' || c == '\r' || c == '\U{000B}' || c == '\U{000C}'
    || c == '\U{00A0}' || c == '\U{1680}' || ('\U{2000}' <= c <= '\U{200A}')
    || c == '\U{2028}' || c == '\U{2029}' || c == '\U{202F}' || c == '\U{205F}'
    || c == '\U{3000}' || c == '\U{FEFF}'
  }

  function TrimStart(s: string): string {
    if s != [] && IsJsSpace(s[0]) then TrimStart(s[1..]) else s
  }

  function TrimEnd(s: string): string {
    if s != [] && IsJsSpace(s[|s| - 1]) then TrimEnd(s[..|s| - 1]) else s
  }

  /** `trim()`. */
  function Trim(s: string): string {
    TrimEnd(TrimStart(s))
  }

  lemma {:induction false} TrimStartIsSuffix(s: string)
    ensures var r := TrimStart(s);
      |r| <= |s| && r == s[|s| - |r|..] && (r == [] || !IsJsSpace(r[0]))
      && forall i :: 0 <= i < |s| - |r| ==> IsJsSpace(s[i])
  {
    if s != [] && IsJsSpace(s[0]) {
      var r := TrimStart(s[1..]);
      TrimStartIsSuffix(s[1..]);
      assert s[1..][|s| - 1 - |r|..] == s[|s| - |r|..];
      forall i | 1 <= i < |s| - |r|
        ensures IsJsSpace(s[i])
      {
        assert s[i] == s[1..][i - 1];
      }
    }
  }

  lemma {:induction false} TrimEndIsPrefix(s: string)
    ensures var r := TrimEnd(s);
      |r| <= |s| && r == s[..|r|] && (r == [] || !IsJsSpace(r[|r| - 1]))
      && forall i :: |r| <= i < |s| ==> IsJsSpace(s[i])
  {
    if s != [] && IsJsSpace(s[|s| - 1]) {
      var r := TrimEnd(s[..|s| - 1]);
      TrimEndIsPrefix(s[..|s| - 1]);
      assert s[..|s| - 1][..|r|] == s[..|r|];
      forall i | |r| <= i < |s| - 1
        ensures IsJsSpace(s[i])
      {
        assert s[i] == s[..|s| - 1][i];
      }
    }
  }

  lemma TrimmedIsSlice(s: string)
    ensures var k := |s| - |TrimStart(s)|;
      0 <= k && k + |Trim(s)| <= |s| && s[k..k + |Trim(s)|] == Trim(s)
  {
    var t := TrimStart(s);
    TrimStartIsSuffix(s);
    TrimEndIsPrefix(t);
    var r := TrimEnd(t);
    var k := |s| - |t|;
    assert s[k..][..|r|] == s[k..k + |r|];
  }

  lemma TrimmedTailIsSpace(s: string)
    ensures var k := |s| - |TrimStart(s)|;
      forall i :: 0 <= k && k + |Trim(s)| <= i < |s| ==> IsJsSpace(s[i])
  {
    var t := TrimStart(s);
    TrimStartIsSuffix(s);
    TrimEndIsPrefix(t);
    var k := |s| - |t|;
    forall i | k + |TrimEnd(t)| <= i < |s|
      ensures IsJsSpace(s[i])
    {
      assert s[i] == t[i - k];
    }
  }

  lemma TrimmedEnds(s: string)
    ensures Trim(s) == [] || (!IsJsSpace(Trim(s)[0]) && !IsJsSpace(Trim(s)[|Trim(s)| - 1]))
  {
    var t := TrimStart(s);
    TrimStartIsSuffix(s);
    TrimEndIsPrefix(t);
    var r := TrimEnd(t);
    if r != [] {
      assert r[0] == t[0];
    }
  }

  /** Trimming removes only white space, from both ends, and leaves none at
      either end. */
  lemma TrimRemovesOnlyEnds(s: string)
    ensures var r := Trim(s);
      (r == [] || (!IsJsSpace(r[0]) && !IsJsSpace(r[|r| - 1])))
      && var k := |s| - |TrimStart(s)|;
      && 0 <= k && k + |r| <= |s| && s[k..k + |r|] == r
      && (forall i :: 0 <= i < k ==> IsJsSpace(s[i]))
      && (forall i :: k + |r| <= i < |s| ==> IsJsSpace(s[i]))
  {
    TrimStartIsSuffix(s);
    TrimmedIsSlice(s);
    TrimmedTailIsSpace(s);
    TrimmedEnds(s);
  }

  /** `split(" ").length`: one more than the number of single spaces. */
  function SplitCount(s: string): nat {
    Count(s, ' ') + 1
  }

  const NameError := "Por favor, informe seu nome e sobrenome."
  const PhoneError := "Informe um número de WhatsApp válido com DDD."
  const PasswordError := "A senha deve ter no mínimo 8 caracteres."

  /** The front-end checks of `handleAuth`, returning the first that fails:
      on sign-up the name, then the phone; in both modes the password. */
  function Validate(isLogin: bool, name: string, phone: string, password: string): Option<string> {
    if !isLogin && SplitCount(Trim(name)) < 2 then Some(NameError)
    else if !isLogin && |Digits(phone)| < 10 then Some(PhoneError)
    else if |password| < 8 then Some(PasswordError)
    else None
  }

  /** The name check passes exactly when a space is left inside the name
      after trimming: "Ana Souza" passes, " Ana " and "Ana\tSouza" do not. */
  lemma NameCheck(name: string)
    ensures SplitCount(Trim(name)) >= 2 <==> ' ' in Trim(name)
  {
    CountPositive(Trim(name), ' ');
  }

  /** The form is accepted exactly when every rule of its mode holds; the
      login mode ignores name and phone; and a failing rule is reported only
      when every earlier rule passed. */
  lemma ValidationRules(isLogin: bool, name: string, phone: string, password: string)
    ensures var nameOk := ' ' in Trim(name);
      var phoneOk := |Digits(phone)| >= 10;
      var r := Validate(isLogin, name, phone, password);
      && (r == None <==> (isLogin || (nameOk && phoneOk)) && |password| >= 8)
      && (isLogin ==> r == (if |password| < 8 then Some(PasswordError) else None))
      && (r == Some(NameError) <==> !isLogin && !nameOk)
      && (r == Some(PhoneError) <==> !isLogin && nameOk && !phoneOk)
      && (r == Some(PasswordError) <==> (isLogin || (nameOk && phoneOk)) && |password| < 8)
  {
    NameCheck(name);
  }

  // ---------------------------------------------------------------------
  // Error translation

  /** The `catch` block's translation of the auth service's message. */
  function TranslateError(message: string): string {
    if Contains(message, "Invalid login credentials") then "E-mail ou senha incorretos."
    else if Contains(message, "User already registered") then "Este e-mail já está cadastrado."
    else if message != "" then message
    else "Ocorreu um erro na autenticação."
  }

  lemma {:induction false} ContainsItself(prefix: string, sub: string, suffix: string)
    ensures Contains(prefix + sub + suffix, sub)
    decreases |prefix|
  {
    var s := prefix + sub + suffix;
    if prefix == [] {
      assert s[..|sub|] == sub;
    } else {
      assert s[1..] == prefix[1..] + sub + suffix;
      ContainsItself(prefix[1..], sub, suffix);
    }
  }

  /** Messages carrying the service's two known phrases anywhere are
      replaced by the Portuguese text (the credentials one first); any other
      message is shown as it came, and an empty one gets a generic text. The
      error shown is never empty. */
  lemma TranslationCases(prefix: string, suffix: string, message: string)
    ensures TranslateError(prefix + "Invalid login credentials" + suffix) == "E-mail ou senha incorretos."
    ensures !Contains(prefix + "Invalid login credentials" + suffix, "User already registered") ==>
      TranslateError(prefix + "Invalid login credentials" + suffix) != "Este e-mail já está cadastrado."
    ensures !Contains(prefix + "User already registered" + suffix, "Invalid login credentials") ==>
      TranslateError(prefix + "User already registered" + suffix) == "Este e-mail já está cadastrado."
    ensures (!Contains(message, "Invalid login credentials") && !Contains(message, "User already registered")
      && message != []) ==> TranslateError(message) == message
    ensures TranslateError(message) != []
  {
    ContainsItself(prefix, "Invalid login credentials", suffix);
    ContainsItself(prefix, "User already registered", suffix);
  }

  // ---------------------------------------------------------------------
  // The form

  /** The call `handleAuth` makes to the auth service. */
  datatype AuthCall =
    | SignIn(email: string, password: string)
    | SignUp(email: string, password: string, name: string, phone: string)

  class AuthForm {
    var isLogin: bool
    var loading: bool
    var error: string                // erro
    var name: string                 // nome
    var phone: string                // telefone
    var email: string
    var password: string             // senha
    var navigatedHome: bool

    constructor ()
      ensures isLogin && !loading && error == "" && name == "" && phone == ""
      ensures email == "" && password == "" && !navigatedHome
    {
      isLogin, loading, error := true, false, "";
      name, phone, email, password := "", "", "", "";
      navigatedHome := false;
    }

    /** `handleTelefoneChange`. */
    method PhoneChanged(input: string)
      modifies this`phone
      ensures phone == MaskPhone(input)
    {
      var v := Digits(input);
      if |v| > 11 {
        v := v[..11];
      }
      if |v| > 2 {
        v := "(" + v[..2] + ") " + v[2..];
      }
      if |v| > 10 {
        v := v[..10] + "-" + v[10..];
      }
      phone := v;
    }

    /** `handleAuth`. A failing check of `Validate` sets its message and
        makes no call;
        otherwise the mode's call is made with the form's fields, and its
        `reply` (an error message, or none) decides between going home and
        showing the translated error. Loading always ends cleared. */
    method HandleAuth(reply: Option<string>) returns (call: Option<AuthCall>)
      modifies this`loading, this`error, this`navigatedHome
      ensures !loading
      ensures var v := Validate(isLogin, name, phone, password);
        && (v.Some? ==> call == None && error == v.value && navigatedHome == old(navigatedHome))
        && (v.None? ==> call == Some(if isLogin then SignIn(email, password) else SignUp(email, password, name, phone)))
        && (v.None? && reply.None? ==> navigatedHome && error == "")
        && (v.None? && reply.Some? ==> navigatedHome == old(navigatedHome) && error == TranslateError(reply.value))
    {
      loading := true;
      error := "";
      var failure := Validate(isLogin, name, phone, password);
      if failure.Some? {
        error := failure.value;
        loading := false;
        return None;
      }
      if isLogin {
        call := Some(SignIn(email, password));
      } else {
        call := Some(SignUp(email, password, name, phone));
      }
      if reply.None? {
        navigatedHome := true;
      } else {
        error := TranslateError(reply.value);
      }
      loading := false;
    }
  }
}
