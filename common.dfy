/**
 * Vocabulary shared by the pages of the calculator: optional values, numbers
 * that may be infinite, the five break-even bands and the colours the pages
 * use to paint figures.
 */
module Common {

  datatype Option<+T> = None | Some(value: T)

  /** A JavaScript number as the calculator produces it: finite, or +Infinity. */
  datatype Extended = Finite(value: real) | Infinity

  /** The five break-even-ratio bands, from the safest to the most dangerous. */
  datatype Band = Safe | Healthy | Normal | Caution | Danger

  /** Position of a band on the scale from safe (0) to danger (4). */
  function Rank(b: Band): nat
  {
    match b
    case Safe => 0
    case Healthy => 1
    case Normal => 2
    case Caution => 3
    case Danger => 4
  }

  /** The label each band carries on screen. */
  function Label(b: Band): string
  {
    match b
    case Safe => "安泰"
    case Healthy => "健全"
    case Normal => "普通"
    case Caution => "要注意"
    case Danger => "危険"
  }

  /** The colour family of a Tailwind class (text-green-600, bg-blue-500, ...). */
  datatype Hue = Green | Blue | Yellow | Orange | Red | Gray
}
