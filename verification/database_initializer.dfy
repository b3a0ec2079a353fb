/**
 * DatabaseInitializer: the seed-data step. When the user table is empty,
 * the bundled SQL script is cut into statements line by line and each
 * statement is executed on its own; a failing one is logged and the loop
 * goes on. All of it runs in one transaction, and JPA marks that
 * transaction rollback-only when a statement fails, so the closing commit
 * keeps the seed only when every statement succeeded. Reading the resource
 * (and its split into lines) and the database itself are outside the
 * model: the script arrives as its lines, and whether a statement succeeds
 * is a function parameter.
 */
module DatabaseInitializer {
  import opened Wrappers
  import opened JavaText

  /** A blank line or a "--" comment line, which the splitter skips. */
  predicate Skipped(line: string)
  {
    Trim(line) == "" || StartsWith(Trim(line), "--")
  }

  /** A kept line whose trimmed text ends with ';' closes a statement. */
  predicate Terminates(line: string)
  {
    EndsWith(Trim(line), ";")
  }

  /** The splitter's state: the statements emitted so far and the text buffered since the last one. */
  datatype Scan = Scan(statements: seq<string>, buffer: string)

  /**
   * One line of the loop: a skipped line changes nothing; a kept line is
   * appended to the buffer as it is, and when it terminates the buffer is
   * emitted as a statement and emptied.
   */
  function Step(s: Scan, line: string): (r: Scan)
    ensures Skipped(line) ==> r == s
    ensures !Skipped(line) && Terminates(line) ==> r.statements == s.statements + [s.buffer + line] && r.buffer == ""
    ensures !Skipped(line) && !Terminates(line) ==> r.statements == s.statements && r.buffer == s.buffer + line
  {
    if Skipped(line) then s
    else if Terminates(line) then Scan(s.statements + [s.buffer + line], "")
    else Scan(s.statements, s.buffer + line)
  }

  /** The state after the whole script, line by line from the first. */
  function ScanScript(lines: seq<string>): Scan
    decreases |lines|
  {
    if lines == [] then Scan([], "") else Step(ScanScript(lines[..|lines| - 1]), lines[|lines| - 1])
  }

  /** The strings joined with nothing between them. */
  function Concat(parts: seq<string>): (r: string)
    ensures parts == [] ==> r == ""
    decreases |parts|
  {
    if parts == [] then "" else Concat(parts[..|parts| - 1]) + parts[|parts| - 1]
  }

  lemma ConcatAppend(parts: seq<string>, x: string)
    ensures Concat(parts + [x]) == Concat(parts) + x
  {
    assert (parts + [x])[..|parts|] == parts;
  }

  /** The lines the splitter keeps, in order. */
  function Kept(lines: seq<string>): (r: seq<string>)
    ensures |r| <= |lines|
    ensures forall i :: 0 <= i < |r| ==> !Skipped(r[i])
    decreases |lines|
  {
    if lines == [] then []
    else Kept(lines[..|lines| - 1]) + if Skipped(lines[|lines| - 1]) then [] else [lines[|lines| - 1]]
  }

  /** How many kept lines terminate a statement. */
  function Terminators(lines: seq<string>): (n: nat)
    ensures n <= |lines|
    decreases |lines|
  {
    if lines == [] then 0
    else Terminators(lines[..|lines| - 1]) + if !Skipped(lines[|lines| - 1]) && Terminates(lines[|lines| - 1]) then 1 else 0
  }

  /**
   * Nothing is lost and nothing is added: the emitted statements followed
   * by the unterminated rest, run together, are exactly the kept lines run
   * together, each verbatim; and there is one statement per terminating line.
   */
  lemma {:induction false} ScanKeepsText(lines: seq<string>)
    ensures Concat(ScanScript(lines).statements) + ScanScript(lines).buffer == Concat(Kept(lines))
    ensures |ScanScript(lines).statements| == Terminators(lines)
    decreases |lines|
  {
    if lines != [] {
      var init, line := lines[..|lines| - 1], lines[|lines| - 1];
      ScanKeepsText(init);
      var s, r := ScanScript(init), ScanScript(lines);
      assert r == Step(s, line);
      if Skipped(line) {
        assert Kept(lines) == Kept(init);
        assert r == s;
      } else {
        assert Kept(lines) == Kept(init) + [line];
        ConcatAppend(Kept(init), line);
        assert Concat(Kept(lines)) == Concat(s.statements) + s.buffer + line;
        if Terminates(line) {
          ConcatAppend(s.statements, s.buffer + line);
          assert r.statements == s.statements + [s.buffer + line] && r.buffer == "";
          assert Concat(r.statements) + r.buffer == Concat(s.statements) + (s.buffer + line);
        } else {
          assert r.statements == s.statements && r.buffer == s.buffer + line;
          assert Concat(r.statements) + r.buffer == Concat(s.statements) + (s.buffer + line);
        }
        assert Concat(s.statements) + (s.buffer + line) == Concat(s.statements) + s.buffer + line;
      }
    }
  }

  /**
   * Text after the last terminating line is never executed: it stays in
   * the buffer, which holds only kept lines that do not terminate, and a
   * script whose last kept line terminates leaves nothing behind.
   */
  lemma {:induction false} BufferHoldsUnterminatedTail(lines: seq<string>)
    ensures ScanScript(lines).buffer != "" ==> exists k :: 0 <= k < |Kept(lines)| && !Terminates(Kept(lines)[k])
    ensures Kept(lines) != [] && Terminates(Kept(lines)[|Kept(lines)| - 1]) ==> ScanScript(lines).buffer == ""
    decreases |lines|
  {
    if lines != [] {
      var init, line := lines[..|lines| - 1], lines[|lines| - 1];
      BufferHoldsUnterminatedTail(init);
      var s, r := ScanScript(init), ScanScript(lines);
      assert r == Step(s, line);
      if Skipped(line) {
        assert Kept(lines) == Kept(init);
        assert r == s;
      } else {
        var kept := Kept(lines);
        assert kept == Kept(init) + [line];
        assert kept[|kept| - 1] == line;
        if Terminates(line) {
          assert r.buffer == "";
        } else {
          assert !Terminates(kept[|kept| - 1]);
        }
      }
    }
  }

  /**
   * executeSqlScript: the loop over the script's lines with its statement
   * buffer. Every emitted statement is attempted, in order; one that fails
   * is reported and the loop goes on. Returns the attempted statements and
   * the failed ones.
   */
  method ExecuteSqlScript(lines: seq<string>, succeeds: string -> bool) returns (attempted: seq<string>, failed: seq<string>)
    ensures attempted == ScanScript(lines).statements
    ensures failed == FailedAmong(attempted, succeeds)
  {
    attempted, failed := [], [];
    var buffer := "";
    for i := 0 to |lines|
      invariant ScanScript(lines[..i]) == Scan(attempted, buffer)
      invariant failed == FailedAmong(attempted, succeeds)
    {
      ScanStep(lines, i);
      var line := lines[i];
      if Skipped(line) {
        continue;
      }
      buffer := buffer + line;
      if Terminates(line) {
        var sql := buffer;
        if !succeeds(sql) {
          failed := failed + [sql];
        }
        FailedAmongSnoc(attempted, sql, succeeds);
        attempted := attempted + [sql];
        buffer := "";
      }
    }
    assert lines[..|lines|] == lines;
  }

  lemma ScanStep(lines: seq<string>, i: int)
    requires 0 <= i < |lines|
    ensures ScanScript(lines[..i + 1]) == Step(ScanScript(lines[..i]), lines[i])
  {
    assert lines[..i + 1][..i] == lines[..i];
  }

  lemma FailedAmongSnoc(attempted: seq<string>, sql: string, succeeds: string -> bool)
    ensures FailedAmong(attempted + [sql], succeeds)
            == FailedAmong(attempted, succeeds) + if succeeds(sql) then [] else [sql]
  {
    assert (attempted + [sql])[..|attempted|] == attempted;
  }

  /** The statements among `attempted` that fail, in order. */
  function FailedAmong(attempted: seq<string>, succeeds: string -> bool): (r: seq<string>)
    ensures |r| <= |attempted|
    ensures forall i :: 0 <= i < |r| ==> !succeeds(r[i]) && r[i] in attempted
    ensures r == [] <==> forall i :: 0 <= i < |attempted| ==> succeeds(attempted[i])
    decreases |attempted|
  {
    if attempted == [] then []
    else
      var last := attempted[|attempted| - 1];
      FailedAmong(attempted[..|attempted| - 1], succeeds) + if succeeds(last) then [] else [last]
  }

  /**
   * initializeSampleData: the script runs only when there are no users,
   * and not at all when its resource is missing. `seeded` is what the
   * commit keeps: every attempted statement when all of them succeeded,
   * nothing once one failed (the commit of a rollback-only transaction
   * fails and is rolled back).
   */
  method InitializeSampleData(userCount: int, script: Option<seq<string>>, succeeds: string -> bool)
    returns (attempted: seq<string>, seeded: seq<string>)
    ensures userCount != 0 || script.None? ==> attempted == [] && seeded == []
    ensures userCount == 0 && script.Some? ==> attempted == ScanScript(script.value).statements
    ensures (forall i :: 0 <= i < |attempted| ==> succeeds(attempted[i])) ==> seeded == attempted
    ensures (exists i :: 0 <= i < |attempted| && !succeeds(attempted[i])) ==> seeded == []
  {
    attempted, seeded := [], [];
    if userCount == 0 && script.Some? {
      var failed;
      attempted, failed := ExecuteSqlScript(script.value, succeeds);
      seeded := if failed == [] then attempted else [];
    }
  }
}
