# debug_canvas in Dafny

A model of `DebugCanvas`, a sparse and unbounded two-dimensional grid of
characters keyed by `(row, column)` pairs of `i64`. The canvas stores its
occupied cells in a map. It keeps four extrema (`min_row`, `max_row`,
`min_col`, `max_col`) that describe the bounding box of those cells. When no
cell is occupied, the extrema hold a sentinel: the minima sit at `i64::MAX`
and the maxima at `i64::MIN`. `Display` renders the box as text, one line per
row.

Files:

- `canvas.dfy`, module `Canvas`: the options, the `DebugCanvas` class with its
  fields, its object invariant `Valid()`, and all of its operations, with the
  lemmas about the bounding box and the rendered layout.
- `scenario.dfy`, module `CanvasScenario`: the write/remove sequence of the
  repository's own test, replayed step by step with the text each step
  renders.

How the source maps onto the model:

- `DebugCanvas` is a class. `points` is a `map<(int, int), char>`, and the
  four extrema are fields. The methods that change them carry
  `modifies this`. `options` is a `const` field: no operation changes it
  after construction, and `clear` rebuilds with the same options
  (src/lib.rs:52).
- `Valid()` is the invariant every mutator keeps: the extrema are the tight
  bounding box of the keys, or the sentinel when there are none (`TightBox`).
- `size` and `index` are functions (`Size`, `Get`). A write through
  `IndexMut` is split in two. `Touch` is what `index_mut` does before the
  caller assigns. `Set` is `canvas[(row, col)] = c`, that is `Touch` followed
  by the store.
- The key scans in `remove` (`keys().map(..).max().unwrap_or(..)`) are the
  methods `MaxCoord` and `MinCoord`. Each is a loop over the key set with an
  `Option` accumulator. `Remove` calls them once per extremum.
- `fmt` is the method `Fmt`, with the same two nested loops, producing a
  `string`. Its specification is the ghost function `Rendered`, built from
  `Lines` and `Cells`. `RenderedAt` states the layout by position.

Where the code and its in-file test differ, the model follows the code:

- `Options` derives `Default` (src/lib.rs:7-10), so the default filler is the
  NUL character `'\0'` (`DefaultOptions`), not the space that the test's
  literals show in empty cells (src/lib.rs:142, 150).
- `index_mut` inserts a literal space, not `options.filler`, into a cell it
  creates (src/lib.rs:118). `Touch` does the same.
- `fmt` writes a newline after the last line as well (src/lib.rs:90), so
  every non-empty rendering ends in `'\n'`. The test at src/lib.rs:127-169
  expects no final newline and a space filler under the default options.
  `BlankCanvasScenario` replays its steps with a space filler and shows the
  final newlines. `DefaultCanvasRenders` replays its first writes on `new`
  and shows what the code renders there: `"#\n"` where the test expects
  `"#"`, and `".-\n\0a\n"` where it expects `".-\n a"`.

## Model

| member | source | states |
|---|---|---|
| `Canvas.DebugCanvas.constructor` | src/lib.rs:37-39 | `new`: an empty, valid canvas with the default options (not bottom-oriented, NUL filler), sentinel extrema and size (0, 0) |
| `Canvas.DebugCanvas.WithOptions` | src/lib.rs:40-49 | `with_options`: an empty, valid canvas that keeps the given options, with sentinel extrema (`i64::MAX` minima, `i64::MIN` maxima) and size (0, 0) |
| `Canvas.DebugCanvas.IsEmpty` | src/lib.rs:23-25 | no cell is occupied exactly when the map has no entry (`len() == 0`) |
| `Canvas.DebugCanvas.Size` | src/lib.rs:26-35 | the size is (0, 0) exactly when no cell is occupied; otherwise both dimensions are at least 1 |
| `Canvas.DebugCanvas.SizeIsTightBox` | src/lib.rs:26-35 | on an occupied canvas every cell lies in the `Size().0` by `Size().1` box at (minRow, minCol), and each of the box's four edges holds an occupied cell |
| `Canvas.DebugCanvas.Get` | src/lib.rs:101-105 | reading a cell gives its stored character when it is occupied and the configured filler otherwise; reading changes nothing (a function) |
| `Canvas.DebugCanvas.ReadOutsideBox` | src/lib.rs:101-105 | on a valid canvas, every read outside the bounding box yields the filler |
| `Canvas.DebugCanvas.EmptyReadsFiller` | src/lib.rs:101-105 | on an empty canvas, every read yields the filler |
| `Canvas.DebugCanvas.Touch` | src/lib.rs:112-119 | each extremum widens to take in (row, col), each axis on its own; an absent cell is inserted holding a space, and an existing one is left as it was; no other entry changes; the invariant is kept |
| `Canvas.TouchKeepsBox` | src/lib.rs:114-118 | widening the tight box (or the sentinel) of a key set by one point with `min`/`max` gives the tight box of the set with that point added |
| `Canvas.DebugCanvas.Set` | src/lib.rs:112-119 | after `canvas[(row, col)] = c` the map is the old map with (row, col) bound to `c`, reading (row, col) gives `c`, the extrema widened as in `Touch`, and the invariant is kept |
| `Canvas.MaxCoord` | src/lib.rs:57-59 | the scan returns the largest coordinate on the axis, attained by some key, or `i64::MIN` when there are no keys |
| `Canvas.MinCoord` | src/lib.rs:58-60 | the scan returns the smallest coordinate on the axis, attained by some key, or `i64::MAX` when there are no keys |
| `Canvas.DebugCanvas.Remove` | src/lib.rs:55-61 | deletes only (row, col) and recomputes the extrema as the tight box of the remaining keys, or the sentinel when none remain; reading (row, col) afterwards gives the filler; the box only narrows; removing an absent cell leaves the map and the extrema unchanged |
| `Canvas.RemoveNarrowsBox` | src/lib.rs:55-61 | the tight box after removing one point lies within the old box, and equals it when the point was not a key |
| `Canvas.DebugCanvas.Clear` | src/lib.rs:51-53 | `clear` leaves an empty, valid canvas with sentinel extrema, size (0, 0) and the same options |
| `Canvas.DebugCanvas.Fmt` | src/lib.rs:70-92 | the nested loops write exactly `Rendered()`: nothing for an empty canvas, otherwise each line of the box followed by a newline, line `i` showing row `LineRow(i)` (`min_row + i` when bottom-oriented, `max_row - i` otherwise, src/lib.rs:81-85) |
| `Canvas.DebugCanvas.CellsAt` | src/lib.rs:80-88 | the inner loop's output for a line has `j` characters, and character `t` is the read value at column `minCol + t` |
| `Canvas.DebugCanvas.LinesLength` | src/lib.rs:76-89 | `i` lines of width `m` joined by newlines take `i * (m + 1) - 1` characters |
| `Canvas.DebugCanvas.LinesAt` | src/lib.rs:76-89 | in `i` joined lines, position `a * (m + 1) + t` is the read value of line `a` at column `minCol + t`, or the newline after line `a` |
| `Canvas.DebugCanvas.RenderedAt` | src/lib.rs:75-90 | an occupied canvas renders as `n` lines of `m` characters, each followed by a newline, where (n, m) is the size; line `i` shows row `maxRow - i`, or `minRow + i` when bottom-oriented; character `j` of a line is the read value at column `minCol + j` |
| `Canvas.DebugCanvas.RenderedShape` | src/lib.rs:72-90 | the rendering is empty exactly when the canvas is empty; otherwise its last character is a newline |
| `Canvas.DebugCanvas.RenderedShowsPoint` | src/lib.rs:76-88 | each occupied cell's character appears in the rendering on line `maxRow - row` (or `row - minRow` when bottom-oriented) at position `col - minCol` |
| `CanvasScenario.BlankCanvasScenario` | src/lib.rs:127-169 | the test's steps, with a space filler, render `""`, `"#\n"`, `".\n"`, `".-\n"`, `".-\n a\n"`, `".-  \n a b\n"`, `".-\n a\n"` and `".-\n a\n"` |
| `CanvasScenario.DefaultCanvasRenders` | src/lib.rs:129-144 | on `new`, whose filler is NUL, the first write renders `"#\n"`, not the test's `"#"`, and the writes up to (2, 3) render `".-\n\0a\n"`, not the test's `".-\n a"` |
| `CanvasScenario.WriteFirst` | src/lib.rs:131-132 | writing `'#'` at (3, 2) on an empty canvas gives a one-cell box that renders `"#\n"`, whatever the options |
| `CanvasScenario.Overwrite` | src/lib.rs:133-134 | overwriting (3, 2) with `'.'` keeps the box and renders `".\n"` |
| `CanvasScenario.WriteRight` | src/lib.rs:135-136 | writing `'-'` at (3, 3) widens the columns to 2..3 and renders `".-\n"` |
| `CanvasScenario.WriteBelow` | src/lib.rs:137-144 | writing `'a'` at (2, 3) widens the rows to 2..3; row 3 is rendered first, and the empty cell (2, 2) shows the filler, giving `".-\n"`, the filler, then `"a\n"` |
| `CanvasScenario.WriteFarRight` | src/lib.rs:145-152 | writing `'b'` at (2, 5) widens the columns to 2..5, and the gaps show the filler |
| `CanvasScenario.RemoveFarRight` | src/lib.rs:153-160 | removing (2, 5) narrows the columns back to 2..3 and restores the earlier rendering |
| `CanvasScenario.RemoveAbsent` | src/lib.rs:161-168 | removing the never-written (2, 8) changes neither the cells, nor the box, nor the rendering |

## Left out

- The `std::fmt::Formatter` plumbing, `fmt::Result` and the `?` error propagation in `fmt` (src/lib.rs:71-91): `Fmt` returns the text it would write.
- The generic `T: Into<i64>` coordinates of `Index` and `IndexMut` (src/lib.rs:95-97, 108-110): the model takes integers directly. Writes and removals take values in the `i64` range (`I64`). `Get` accepts any integer, which never changes what it reads.
- The `HashMap` itself (src/lib.rs:15): a Dafny `map`, with no hashing. `MaxCoord` and `MinCoord` visit the keys in an arbitrary order, and their results do not depend on it.
- The `Debug`, `Clone` and `Copy` derives and `impl Default for DebugCanvas` (src/lib.rs:7, 13, 64-68): they add no behaviour; `Default` is the `new` constructor.
- `index_mut` hands back a `&mut char`: the model has no references, so a write is `Set`, and `Touch` is an access through the reference that stores nothing.
- Canvas.DebugCanvas.Size: returns the true size of every box and does not model the `i64` arithmetic of `max_row - min_row + 1` and `max_col - min_col + 1` nor the `as u64` cast (src/lib.rs:31-32). In the source the subtraction overflows `i64` as soon as the box spans more than `i64::MAX` rows or columns (for example rows -1 and `i64::MAX`). A debug build, which is what `cargo test` uses, panics there, and `fmt` panics through `size()` (src/lib.rs:75). A release build wraps, and after `as u64` the only wrong answer is 0, for a box spanning the whole `i64` range.
- Canvas.DebugCanvas.Fmt: does not model the `i64` arithmetic and the `as i64` casts of the row and column indices (src/lib.rs:82-86); these cannot overflow inside a box that fits in `i64`, and the model does not restrict the width.
- The test's literal strings (src/lib.rs:130-168) as stated: they expect a space filler under the default options, which is NUL, and no final newline. `BlankCanvasScenario` states the same steps with a space filler and the final newlines of the code; `DefaultCanvasRenders` shows the first steps under the default options.
