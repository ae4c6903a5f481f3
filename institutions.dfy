/** The institutions the scrapers support, with the credential fields each
    one's login form asks for, and the display label of every credential
    field. */
module Institutions {
  import opened Common

  datatype Institution = Institution(displayLabel: string, credentials: seq<string>, requiresOtp: bool)

  /** The keys of `INSTITUTIONS`, in declaration order. */
  const InstitutionKeys: seq<string> := ["leumi", "discount", "one_zero", "isracard", "cal", "hapoalim", "mizrahi"]

  /** The entry of `INSTITUTIONS` under `key`, if it has one of its own. */
  function Lookup(key: string): (r: Option<Institution>)
    ensures r.Some? <==> key in InstitutionKeys
    ensures r.Some? ==> "password" in r.value.credentials
    ensures r.Some? ==> (r.value.requiresOtp <==> key == "one_zero")
    ensures r.Some? ==> forall f :: f in r.value.credentials ==> f in CredentialLabels
  {
    match key
    case "leumi" => Some(Institution("Bank Leumi", ["username", "password"], false))
    case "discount" => Some(Institution("Bank Discount", ["id", "password", "num"], false))
    case "one_zero" => Some(Institution("One Zero", ["email", "password"], true))
    case "isracard" => Some(Institution("Isracard", ["id", "card6Digits", "password"], false))
    case "cal" => Some(Institution("Cal", ["username", "password"], false))
    case "hapoalim" => Some(Institution("Bank Hapoalim", ["userCode", "password"], false))
    case "mizrahi" => Some(Institution("Bank Mizrahi", ["username", "password"], false))
    case _ => None
  }

  /** `CREDENTIAL_LABELS`: the English and Hebrew label of each field. */
  const CredentialLabels: map<string, string> := map[
    "username" := "Username / שם משתמש",
    "password" := "Password / סיסמה",
    "email" := "Email / אימייל",
    "id" := "ID / תעודת זהות",
    "num" := "Card Number / מספר כרטיס",
    "card6Digits" := "Card 6 Digits / 6 ספרות ראשונות",
    "userCode" := "User Code / קוד משתמש"]

  /** There are seven institutions, each listed once, and exactly one of
      them asks for a one-time password. */
  lemma SevenInstitutions()
    ensures |InstitutionKeys| == 7
    ensures forall i, j :: 0 <= i < j < |InstitutionKeys| ==> InstitutionKeys[i] != InstitutionKeys[j]
    ensures forall k :: k in InstitutionKeys && Lookup(k).value.requiresOtp ==> k == "one_zero"
  {
  }

  /** No institution asks for the same field twice. */
  lemma CredentialFieldsDistinct(key: string)
    requires Lookup(key).Some?
    ensures var fields := Lookup(key).value.credentials;
      forall i, j :: 0 <= i < j < |fields| ==> fields[i] != fields[j]
  {
  }

  // ---------------------------------------------------------------------
  // The membership test of the accounts route

  /** The names every plain JavaScript object inherits from
      `Object.prototype`; the `in` operator finds them on `INSTITUTIONS`
      too. */
  const PrototypeNames: set<string> := {
    "constructor", "hasOwnProperty", "isPrototypeOf", "propertyIsEnumerable", "toString", "valueOf",
    "toLocaleString", "__proto__", "__defineGetter__", "__defineSetter__", "__lookupGetter__",
    "__lookupSetter__"}

  /** `key in INSTITUTIONS` as the accounts route writes it: an own key or
      an inherited one. */
  predicate InInstitutionsAsWritten(key: string) {
    key in InstitutionKeys || key in PrototypeNames
  }

  /** The test as written lets an inherited name through although no
      institution has it. */
  lemma InheritedNamePasses()
    ensures InInstitutionsAsWritten("toString") && Lookup("toString").None?
  {
  }

  /** The test the route means: `key` names an institution of its own. */
  predicate IsInstitution(key: string) {
    Lookup(key).Some?
  }

  /** The intended test agrees with the written one on every name that is
      not inherited, and accepts exactly the seven keys. */
  lemma IsInstitutionExactly(key: string)
    ensures IsInstitution(key) <==> key in InstitutionKeys
    ensures key !in PrototypeNames ==> (IsInstitution(key) <==> InInstitutionsAsWritten(key))
  {
  }
}
