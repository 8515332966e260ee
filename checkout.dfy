/** The checkout form: a copy of the six address fields, edited one field at a
    time and handed on, as it is, when the form is submitted. */
module Checkout {
  import opened Types

  /** The value of one field. */
  function FieldOf(info: CustomerInfo, field: CustomerField): string
  {
    match field
    case FullName => info.fullName
    case Address => info.address
    case City => info.city
    case Country => info.country
    case State => info.state
    case ZipCode => info.zipCode
  }

  /** `{ ...prev, [field]: value }`. */
  function WithField(info: CustomerInfo, field: CustomerField, value: string): (r: CustomerInfo)
    ensures FieldOf(r, field) == value
    ensures forall f :: f != field ==> FieldOf(r, f) == FieldOf(info, f)
  {
    match field
    case FullName => info.(fullName := value)
    case Address => info.(address := value)
    case City => info.(city := value)
    case Country => info.(country := value)
    case State => info.(state := value)
    case ZipCode => info.(zipCode := value)
  }

  /** A record is determined by its six fields. */
  lemma FieldsDetermine(a: CustomerInfo, b: CustomerInfo)
    requires forall f :: FieldOf(a, f) == FieldOf(b, f)
    ensures a == b
  {
    assert FieldOf(a, FullName) == FieldOf(b, FullName);
    assert FieldOf(a, Address) == FieldOf(b, Address);
    assert FieldOf(a, City) == FieldOf(b, City);
    assert FieldOf(a, Country) == FieldOf(b, Country);
    assert FieldOf(a, State) == FieldOf(b, State);
    assert FieldOf(a, ZipCode) == FieldOf(b, ZipCode);
  }

  /** Writing a field's own value changes nothing; a second write to a field
      overrides the first; writes to different fields commute. */
  lemma WithFieldLaws(info: CustomerInfo, f: CustomerField, g: CustomerField, v: string, w: string)
    ensures WithField(info, f, FieldOf(info, f)) == info
    ensures WithField(WithField(info, f, v), f, w) == WithField(info, f, w)
    ensures f != g ==> WithField(WithField(info, f, v), g, w) == WithField(WithField(info, g, w), f, v)
  {
    FieldsDetermine(WithField(info, f, FieldOf(info, f)), info);
    FieldsDetermine(WithField(WithField(info, f, v), f, w), WithField(info, f, w));
    if f != g {
      FieldsDetermine(WithField(WithField(info, f, v), g, w), WithField(WithField(info, g, w), f, v));
    }
  }

  class CheckoutForm {
    var formData: CustomerInfo

    /** The form starts from the address the store holds. */
    constructor (customerInfo: CustomerInfo)
      ensures formData == customerInfo
    {
      formData := customerInfo;
    }

    /** `handleChange`: one field takes the typed value, the other five are kept. */
    method HandleChange(field: CustomerField, value: string)
      modifies this
      ensures formData == WithField(old(formData), field, value)
    {
      formData := WithField(formData, field, value);
    }

    /** `handleSubmit`: hands on the form as it stands. Nothing is validated, so
        empty fields are passed on too (the footer button bypasses the form's
        `required` checks). */
    method HandleSubmit() returns (submitted: CustomerInfo)
      ensures submitted == formData
    {
      submitted := formData;
    }
  }
}
