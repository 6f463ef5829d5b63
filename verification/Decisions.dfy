/** The policy's answers, in the order allow < ask < deny (src/voxera/policy.py). */
module Decisions {

  datatype Decision = Allow | Ask | Deny

  predicate Leq(a: Decision, b: Decision)
  {
    a.Allow? || a == b || b.Deny?
  }

  function Join(a: Decision, b: Decision): Decision
  {
    if Leq(a, b) then b else a
  }
}
