/**
 * Badge colours used by the status helpers of the Lab and Pharmacy pages.
 * Each helper picks a tone; the tone decides the Tailwind classes.
 */
module Badge {

  datatype Tone = Green | Yellow | Orange | Red | Gray

  /** The class string each helper returns for a tone. */
  function Classes(t: Tone): string
  {
    match t
    case Green => "bg-green-100 text-green-800"
    case Yellow => "bg-yellow-100 text-yellow-800"
    case Orange => "bg-orange-100 text-orange-800"
    case Red => "bg-red-100 text-red-800"
    case Gray => "bg-gray-100 text-gray-800"
  }

  /** Distinct tones give distinct class strings, so a badge's classes tell its tone. */
  lemma ClassesIdentifyTone(t: Tone, u: Tone)
    ensures Classes(t) == Classes(u) ==> t == u
  {
    if t != u {
      assert Classes(t)[3] != Classes(u)[3] || Classes(t)[5] != Classes(u)[5];
    }
  }

}
