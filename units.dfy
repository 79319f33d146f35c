/** The integer size units the API reports: whole mebibytes for files and
    whole gibibytes for free disk space, both rounded down (Python's `//` on
    non-negative integers). */
module Units {

  const BytesPerMegabyte: nat := 1024 * 1024
  const BytesPerGigabyte: nat := 1024 * 1024 * 1024

  /** `size // (1024*1024)`: the number of whole mebibytes in `size` bytes. */
  function Megabytes(size: nat): (mb: nat)
    ensures mb * BytesPerMegabyte <= size < (mb + 1) * BytesPerMegabyte
  {
    size / BytesPerMegabyte
  }

  /** `free // (1024**3)`: the number of whole gibibytes in `free` bytes. */
  function Gigabytes(free: nat): (gb: nat)
    ensures gb * BytesPerGigabyte <= free < (gb + 1) * BytesPerGigabyte
  {
    free / BytesPerGigabyte
  }
}
