/**
 * The declarative registration rules of
 * src/modules/createAccount/validation/registerSchema.ts: which fields of a
 * registration form the schema rejects.
 */
module RegisterSchema {
  import opened Text
  import Formatters

  /** The country codes the form offers, in the order they are listed. */
  const Countries: seq<string> := ["BR", "US", "PT", "AR", "CL", "UY", "ES", "FR", "DE", "OTHER"]

  /** The fields of the registration form. */
  datatype Field = Name | Email | Cpf | Phone | Country | Password | AdvisorName

  /** The values of the registration form, as the inputs hold them. */
  datatype FormValues = FormValues(
    name: string,
    email: string,
    cpf: string,
    phone: string,
    country: string,
    password: string,
    hasAdvisor: bool,
    advisorName: string)

  /** `string().required()`: present and not the empty string. */
  predicate Required(s: string) {
    s != ""
  }

  /** The password rule, `min(6).max(8)`. */
  predicate PasswordLengthOk(p: string) {
    6 <= |p| <= 8
  }

  /** Every field of the form. */
  const AllFields: set<Field> := {Name, Email, Cpf, Phone, Country, Password, AdvisorName}

  lemma EveryField(fld: Field)
    ensures fld in AllFields
  {
  }

  /** The rule the schema applies to one field. */
  predicate Accepts(f: FormValues, fld: Field) {
    match fld
    case Name => Required(f.name)
    case Email => Required(f.email)
    case Cpf => |f.cpf| == 14
    case Phone => |f.phone| >= 14
    case Country => f.country in Countries
    case Password => Required(f.password) && PasswordLengthOk(f.password)
    case AdvisorName => !f.hasAdvisor || Required(f.advisorName)
  }

  /** The fields the schema rejects: exactly those whose rule fails. */
  function Violations(f: FormValues): (errs: set<Field>)
    ensures forall fld :: fld in errs <==> !Accepts(f, fld)
  {
    assert forall fld :: fld in AllFields by {
      forall fld ensures fld in AllFields { EveryField(fld); }
    }
    set fld | fld in AllFields && !Accepts(f, fld)
  }

  /** A form the schema accepts has a masked-length CPF and phone, a listed country and a 6 to 8 character password. */
  lemma AcceptedForm(f: FormValues)
    requires Violations(f) == {}
    ensures |f.cpf| == 14 && |f.phone| >= 14 && f.country in Countries
    ensures PasswordLengthOk(f.password) && f.name != "" && f.email != ""
    ensures f.hasAdvisor ==> f.advisorName != ""
  {
    assert Accepts(f, Cpf) && Accepts(f, Phone) && Accepts(f, Country);
    assert Accepts(f, Password) && Accepts(f, Name) && Accepts(f, Email) && Accepts(f, AdvisorName);
  }

  /** Without the advisor flag the advisor's name plays no part in the verdict. */
  lemma AdvisorNameIgnoredWithoutAdvisor(f: FormValues, name: string)
    requires !f.hasAdvisor
    ensures Violations(f.(advisorName := name)) == Violations(f)
  {
  }

  /**
   * The display masks produce what the schema demands: eleven CPF digits
   * masked are exactly 14 characters long, eleven phone digits masked are at
   * least 14.
   */
  lemma MaskedInputsMeetSchema(f: FormValues, cpfDigits: string, phoneDigits: string)
    requires |cpfDigits| == 11 && AllDigits(cpfDigits)
    requires |phoneDigits| == 11 && AllDigits(phoneDigits)
    ensures var g := f.(cpf := Formatters.FormatCpf(cpfDigits), phone := Formatters.FormatPhone(phoneDigits));
      Cpf !in Violations(g) && Phone !in Violations(g)
  {
    Formatters.FormatCpfOfDigits(cpfDigits);
    Formatters.FormatPhoneOfDigits(phoneDigits);
  }

  /** The schema rejects a CPF typed as bare digits: it must carry the mask. */
  lemma BareCpfRejected(f: FormValues)
    requires |f.cpf| == 11 && AllDigits(f.cpf)
    ensures Cpf in Violations(f)
  {
  }
}
