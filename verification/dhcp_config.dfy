/**
 * The udhcp server configuration text: the writer `make_dhcp_server_config`
 * and the reader at the heart of `get_dhcp_server_config`, which keeps the
 * last space-separated token of every stripped line.
 */
module DhcpConfig {
  import opened Wrappers
  import opened PyText

  /** The indentation the triple-quoted template gives each of its lines. */
  const Indent := "    "

  /** One directive line of the template: indented keyword, a space, the value, a newline. */
  function Directive(keyword: string, value: string): string {
    Indent + keyword + " " + value + "\n"
  }

  /**
   * `make_dhcp_server_config(begin_ip_range, end_ip_range, lease_time, domain_name)`:
   * a leading newline, the `start`, `end`, `min_lease` and `option domain`
   * directives in that order with their arguments verbatim, then the
   * indentation that precedes the closing quotes.
   */
  function MakeDhcpServerConfig(begin: string, end: string, lease: string, domain: string): string {
    "\n" + (Directive("start", begin) + (Directive("end", end) + (Directive("min_lease", lease)
          + (Directive("option domain", domain) + Indent))))
  }

  /** The value read from one line: the last space-separated token of the stripped line. */
  function LineValue(line: string): string {
    LastToken(Strip(line))
  }

  /** The values `get_dhcp_server_config` extracts from a configuration text: one per line. */
  function ConfigValues(text: string): (values: seq<string>)
    ensures |values| == |ReadLines(text)|
  {
    var lines := ReadLines(text);
    seq(|lines|, i requires 0 <= i < |lines| => LineValue(lines[i]))
  }

  /** The result of `get_dhcp_server_config` for a file that is absent (`None`) or holds a text. */
  function ReadDhcpServerConfig(file: Option<string>): (values: seq<string>)
    ensures file.None? ==> values == []
    ensures file.Some? ==> |values| == |ReadLines(file.value)|
  {
    match file
    case None => []
    case Some(text) => ConfigValues(text)
  }

  /**
   * A value the reader gives back unchanged: not empty, no space, no line
   * break, and no whitespace at either end.
   */
  predicate ConfigValue(v: string) {
    v != [] && ' ' !in v && '\n' !in v && '\r' !in v && !IsSpace(v[0]) && !IsSpace(v[|v| - 1])
  }

  /** A line that ends with its only newline. */
  predicate Terminated(line: string) {
    line != [] && line[|line| - 1] == '\n' && '\n' !in line[..|line| - 1]
  }

  /** A terminated line at the front of a text is split off whole. */
  lemma SplitTerminated(line: string, rest: string)
    requires Terminated(line)
    ensures SplitLines(line + rest) == [line] + SplitLines(rest)
  {
    var body := line[..|line| - 1];
    assert line == body + "\n";
    SplitLinesFirst(body, rest);
  }

  /** Four terminated lines and a final unterminated one are read back as those five lines. */
  lemma FiveLines(d1: string, d2: string, d3: string, d4: string, last: string)
    requires Terminated(d1) && Terminated(d2) && Terminated(d3) && Terminated(d4)
    requires last != [] && '\n' !in last
    ensures SplitLines(d1 + (d2 + (d3 + (d4 + last)))) == [d1, d2, d3, d4, last]
  {
    var r4 := d4 + last;
    var r3 := d3 + r4;
    var r2 := d2 + r3;
    SplitLinesSingle(last);
    SplitTerminated(d4, last);
    SplitTerminated(d3, r4);
    SplitTerminated(d2, r3);
    SplitTerminated(d1, r2);
  }

  /** The line structure of the template, stated over arbitrary directive lines. */
  lemma TemplateLines(d1: string, d2: string, d3: string, d4: string, last: string)
    requires Terminated(d1) && Terminated(d2) && Terminated(d3) && Terminated(d4)
    requires last != [] && '\n' !in last
    ensures SplitLines("\n" + (d1 + (d2 + (d3 + (d4 + last))))) == ["\n", d1, d2, d3, d4, last]
  {
    var r1 := d1 + (d2 + (d3 + (d4 + last)));
    FiveLines(d1, d2, d3, d4, last);
    assert Terminated("\n");
    SplitTerminated("\n", r1);
  }

  /** A directive line whose value holds no newline is terminated by its only newline. */
  lemma DirectiveTerminated(keyword: string, value: string)
    requires '\n' !in keyword && '\n' !in value
    ensures Terminated(Directive(keyword, value))
  {
    var body := Indent + keyword + " " + value;
    assert Directive(keyword, value) == body + "\n";
    assert (body + "\n")[..|body|] == body;
  }

  /** The template's lines, as `readlines()` yields them, when no argument holds a line break. */
  lemma MadeConfigLines(begin: string, end: string, lease: string, domain: string)
    requires '\n' !in begin && '\n' !in end && '\n' !in lease && '\n' !in domain
    requires '\r' !in begin && '\r' !in end && '\r' !in lease && '\r' !in domain
    ensures ReadLines(MakeDhcpServerConfig(begin, end, lease, domain))
         == ["\n", Directive("start", begin), Directive("end", end),
             Directive("min_lease", lease), Directive("option domain", domain), Indent]
  {
    var text := MakeDhcpServerConfig(begin, end, lease, domain);
    assert '\r' !in text;
    DirectiveTerminated("start", begin);
    DirectiveTerminated("end", end);
    DirectiveTerminated("min_lease", lease);
    DirectiveTerminated("option domain", domain);
    TemplateLines(Directive("start", begin), Directive("end", end),
                  Directive("min_lease", lease), Directive("option domain", domain), Indent);
  }

  /** The reader recovers the value of a directive line. */
  lemma DirectiveValue(keyword: string, value: string)
    requires keyword != [] && !IsSpace(keyword[0])
    requires ConfigValue(value)
    ensures LineValue(Directive(keyword, value)) == value
  {
    var core := keyword + " " + value;
    assert core[0] == keyword[0] && core[|core| - 1] == value[|value| - 1];
    assert Directive(keyword, value) == Indent + core + "\n";
    StripPadded(Indent, core, "\n");
    assert core == keyword + [' '] + value;
    LastTokenAfterSpace(keyword, value);
  }

  /** Lines of whitespace only are read as empty values. */
  lemma BlankValue(line: string)
    requires AllSpace(line)
    ensures LineValue(line) == ""
  {
    StripPadded(line, "", "");
    assert line + "" + "" == line;
    LastTokenOfWord("");
  }

  /** The values read from a text of six lines, one per line. */
  lemma SixValues(text: string, l0: string, l1: string, l2: string, l3: string, l4: string, l5: string)
    requires ReadLines(text) == [l0, l1, l2, l3, l4, l5]
    ensures ConfigValues(text) == [LineValue(l0), LineValue(l1), LineValue(l2),
                                   LineValue(l3), LineValue(l4), LineValue(l5)]
  {
  }

  /**
   * The values read back from the template are an empty value for the leading
   * newline, the value of each directive line in order, and an empty value for
   * the trailing indentation.
   */
  lemma MadeConfigValues(begin: string, end: string, lease: string, domain: string)
    requires '\n' !in begin && '\n' !in end && '\n' !in lease && '\n' !in domain
    requires '\r' !in begin && '\r' !in end && '\r' !in lease && '\r' !in domain
    ensures ConfigValues(MakeDhcpServerConfig(begin, end, lease, domain))
         == ["", LineValue(Directive("start", begin)), LineValue(Directive("end", end)),
             LineValue(Directive("min_lease", lease)), LineValue(Directive("option domain", domain)), ""]
  {
    MadeConfigLines(begin, end, lease, domain);
    SixValues(MakeDhcpServerConfig(begin, end, lease, domain), "\n", Directive("start", begin),
              Directive("end", end), Directive("min_lease", lease), Directive("option domain", domain), Indent);
    BlankValue("\n");
    BlankValue(Indent);
  }

  /**
   * Round trip: reading back what `make_dhcp_server_config` wrote yields an
   * empty value for the leading newline, the four arguments in order, and an
   * empty value for the trailing indentation.
   */
  lemma ReadBackMade(begin: string, end: string, lease: string, domain: string)
    requires ConfigValue(begin) && ConfigValue(end) && ConfigValue(lease) && ConfigValue(domain)
    ensures ConfigValues(MakeDhcpServerConfig(begin, end, lease, domain)) == ["", begin, end, lease, domain, ""]
  {
    MadeConfigValues(begin, end, lease, domain);
    DirectiveValue("start", begin);
    DirectiveValue("end", end);
    DirectiveValue("min_lease", lease);
    DirectiveValue("option domain", domain);
  }

  /** A directive line with an empty value is read as its bare keyword. */
  lemma EmptyDirectiveValue(keyword: string)
    requires ConfigValue(keyword)
    ensures LineValue(Directive(keyword, "")) == keyword
  {
    assert Directive(keyword, "") == Indent + keyword + " \n";
    StripPadded(Indent, keyword, " \n");
    LastTokenOfWord(keyword);
  }

  /** The first directive read with an empty value gives its keyword. */
  lemma StartKeyword()
    ensures LineValue(Directive("start", "")) == "start"
  {
    assert ConfigValue("start");
    EmptyDirectiveValue("start");
  }

  /**
   * An empty argument does not survive the round trip: its stripped line is
   * the bare keyword, so the reader returns the keyword in its place.
   */
  lemma EmptyValueReadsAsKeyword(end: string, lease: string, domain: string)
    requires ConfigValue(end) && ConfigValue(lease) && ConfigValue(domain)
    ensures ConfigValues(MakeDhcpServerConfig("", end, lease, domain)) == ["", "start", end, lease, domain, ""]
  {
    MadeConfigValues("", end, lease, domain);
    StartKeyword();
    DirectiveValue("end", end);
    DirectiveValue("min_lease", lease);
    DirectiveValue("option domain", domain);
  }
}
