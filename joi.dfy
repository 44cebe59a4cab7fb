/** The handful of Joi rules the order and review schemas use, read on a JSON
    body without type conversion. */
module JoiRules {
  import opened Json

  /** `Number.MAX_SAFE_INTEGER`: Joi rejects numbers beyond it unless told otherwise. */
  const MaxSafeInteger: real := 9007199254740991.0

  /** `Joi.number()` */
  predicate IsNumber(v: Json)
  {
    v.JNum? && -MaxSafeInteger <= v.n <= MaxSafeInteger
  }

  /** `Joi.number().integer()` */
  predicate IsInteger(v: Json)
  {
    IsNumber(v) && v.n == v.n.Floor as real
  }

  /** `Joi.number().positive()` */
  predicate IsPositive(v: Json)
  {
    IsNumber(v) && v.n > 0.0
  }

  /** `Joi.string().min(n)`; a plain `Joi.string()` refuses the empty string. */
  predicate IsStringMin(v: Json, n: nat)
  {
    v.JStr? && v.s != "" && |v.s| >= n
  }

  /** `Joi.string().valid(...allowed)` */
  predicate IsOneOf(v: Json, allowed: set<string>)
  {
    v.JStr? && v.s in allowed
  }

  /** `Joi.object({...})` refuses keys it does not declare. */
  predicate DeclaresOnly(fields: map<string, Json>, declared: set<string>)
  {
    fields.Keys <= declared
  }
}
