/** The colour tones the pages use for badges and labels. */
module Palette {

  datatype Tone = Gray | Green | Yellow | Red | Purple | Blue

  function ToneName(t: Tone): string {
    match t
    case Gray => "gray"
    case Green => "green"
    case Yellow => "yellow"
    case Red => "red"
    case Purple => "purple"
    case Blue => "blue"
  }

  /**
   * The badge classes `bg-<tone>-100 text-<tone>-800` shared by the activity
   * and user badges; the gray one is every switch's default.
   */
  function BadgeClasses(t: Tone): (c: string)
    ensures c == "bg-gray-100 text-gray-800" <==> t == Gray
  {
    match t
    case Gray => "bg-gray-100 text-gray-800"
    case Green => "bg-green-100 text-green-800"
    case Yellow => "bg-yellow-100 text-yellow-800"
    case Red => "bg-red-100 text-red-800"
    case Purple => "bg-purple-100 text-purple-800"
    case Blue => "bg-blue-100 text-blue-800"
  }
}
