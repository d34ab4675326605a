/**
 * The text of the backend entry file that `createMainFile` writes, as a
 * function of the package list it is given. The file is assembled from
 * named sections, in this order:
 *
 *   header, imports, gap, connectDB import, express bootstrap,
 *   middleware, gap, port, route, listen opening, connectDB call, listen closing
 *
 * The functions accept any list of package names, including ones outside
 * the selectable catalog.
 */
module EntryFile {
  import opened Strings
  import opened Seqs

  // ---------------------------------------------------------------------
  // Imports

  /** What an import line binds for a package: a few have fixed forms, the rest bind their own name. */
  function Binding(pkg: string): string {
    if pkg == "body-parser" then "bodyParser"
    else if pkg == "uuid" then "{ v4 as uuidv4 }"
    else if pkg == "cookie-parser" then "cookieParser"
    else if pkg == "method-override" then "methodOverride"
    else if pkg == "express-validator" then "{ body, validationResult }"
    else pkg
  }

  /**
   * The import line for one package: `import `, the binding, then an import
   * from the package itself — and nothing else.
   */
  function ImportLine(pkg: string): (line: string)
    ensures At(line, "import ", 0)
    ensures At(line, Binding(pkg), |"import "|)
    ensures EndsWith(line, " from '" + pkg + "';")
    ensures |line| == |"import "| + |Binding(pkg)| + |" from '" + pkg + "';"|
  {
    var tail := " from '" + pkg + "';";
    var line := "import " + Binding(pkg) + tail;
    assert line == "import " + (Binding(pkg) + tail);
    PrefixThenPart("import ", Binding(pkg), tail);
    line
  }

  /** Every other package `p` gets `import p from 'p';`. */
  lemma ImportLinePlain(pkg: string)
    requires pkg != "body-parser" && pkg != "uuid" && pkg != "cookie-parser"
    requires pkg != "method-override" && pkg != "express-validator"
    ensures ImportLine(pkg) == "import " + pkg + " from '" + pkg + "';"
  {
  }

  function ImportLines(pkgs: seq<string>): seq<string> {
    seq(|pkgs|, i requires 0 <= i < |pkgs| => ImportLine(pkgs[i]))
  }

  // ---------------------------------------------------------------------
  // Middleware

  const BodyParserJson := "app.use(bodyParser.json());"
  const BodyParserUrlencoded := "app.use(bodyParser" + ".urlencoded({ extended: true }));"
  const CookieParserUse := "app.use(cookieParser());"
  const MorganUse := "app.use(morgan('dev'));"
  const CorsUse := "app.use(cors());"
  const MethodOverrideUse := "app.use(methodOverride('_method'));"

  /** Every middleware line the generator knows, in the fixed order it emits them. */
  const MiddlewareLines: seq<string> :=
    [BodyParserJson, BodyParserUrlencoded, CookieParserUse, MorganUse, CorsUse, MethodOverrideUse]

  /** The package whose presence makes a middleware line appear. */
  function Needs(line: string): string {
    if line == BodyParserJson || line == BodyParserUrlencoded then "body-parser"
    else if line == CookieParserUse then "cookie-parser"
    else if line == MorganUse then "morgan"
    else if line == CorsUse then "cors"
    else if line == MethodOverrideUse then "method-override"
    else ""
  }

  /** The middleware lines for a package list: the known lines whose package is listed. */
  function Middleware(pkgs: seq<string>): seq<string> {
    Filter(MiddlewareLines, Wanted(pkgs))
  }

  /** Whether a middleware line's package is listed. */
  function Wanted(pkgs: seq<string>): string -> bool {
    (line: string) => Needs(line) in pkgs
  }

  // ---------------------------------------------------------------------
  // Fixed text

  // (Longer literals are written as concatenations of shorter ones.)
  const Header := "// Your main file content goes here\n"
  const Gap := "\n\n"
  const ConnectDBImport := "import connectDB " + "from './db/connectDB.js';"
  const Bootstrap :=
    "\n\nconst app = express();\n\n"
    + "app.use(express.json());\n"
    + "app.use(express.urlencoded" + "({ extended: true }));\n"
    + "app.use(express.static('public'));\n\n"
  const DotenvConfig := "dotenv.config({ path: './.env' });"
  const EnvPort := "const PORT = process.env.PORT || 3000;"
  const DotenvPort := Gap + DotenvConfig + Gap + EnvPort + "\n"
  const FixedPort := "const PORT = 3000;"
  const Route := "\n\n\napp.get(\"/\", (req, res) => {\n" + "  res.send(\"App is working\");\n" + "});\n\n\n"
  const ListenOpen := "app.listen(PORT, () => {\n" + "    console.log(`App is listening " + "on ${PORT}`);\n" + "    "
  const ConnectDBCall := "connectDB();"
  const ListenClose := "\n});\n"

  // ---------------------------------------------------------------------
  // The file

  /** The sections of the file that depend on the package list. */
  datatype Sections = Sections(
    imports: string,
    connectImport: string,
    middleware: string,
    port: string,
    connectCall: string)

  function Synthesize(pkgs: seq<string>): Sections {
    var mongoose := "mongoose" in pkgs;
    Sections(
      Join(ImportLines(pkgs), "\n"),
      if mongoose then ConnectDBImport else "",
      Join(Middleware(pkgs), "\n"),
      if "dotenv" in pkgs then DotenvPort else FixedPort,
      if mongoose then ConnectDBCall else "")
  }

  /** All sections in file order. */
  function Parts(f: Sections): seq<string> {
    [Header, f.imports, Gap, f.connectImport, Bootstrap, f.middleware, Gap, f.port,
     Route, ListenOpen, f.connectCall, ListenClose]
  }

  // Indices of the sections in `Parts`.
  const ImportsPart := 1
  const ConnectImportPart := 3
  const BootstrapPart := 4
  const MiddlewarePart := 5
  const PortPart := 7
  const RoutePart := 8
  const ListenPart := 9

  function Render(f: Sections): string {
    Concat(Parts(f))
  }

  /** The text `createMainFile` writes for a package list. */
  function MainFileText(pkgs: seq<string>): string {
    Render(Synthesize(pkgs))
  }

  /** Where section `k` starts in a rendered file. */
  function SectionPos(f: Sections, k: nat): nat
    requires k <= 12
  {
    Offset(Parts(f), k)
  }

  /** Where the import line of the `i`-th package starts in the file. */
  function ImportPos(pkgs: seq<string>, i: nat): nat
    requires i < |pkgs|
  {
    |Header| + JoinPos(ImportLines(pkgs), "\n", i)
  }

  // ---------------------------------------------------------------------
  // Properties

  /** Section `k` occurs at its position, and the next section starts right after it. */
  lemma SectionAt(f: Sections, k: nat)
    requires k < 12
    ensures At(Render(f), Parts(f)[k], SectionPos(f, k))
    ensures SectionPos(f, k + 1) == SectionPos(f, k) + |Parts(f)[k]|
  {
    ConcatAt(Parts(f), k);
    OffsetNext(Parts(f), k);
  }

  /** Sections never overlap: an earlier section ends before a later one starts. */
  lemma SectionsInOrder(f: Sections, i: nat, j: nat)
    requires i < j <= 12
    ensures SectionPos(f, i) + |Parts(f)[i]| <= SectionPos(f, j)
  {
    ConcatOrder(Parts(f), i, j);
  }

  /**
   * Whatever the package list, the file starts with the header, then the
   * imports; the express bootstrap, the `/` route and the `app.listen`
   * opening are always present at their positions, and the file always ends
   * with the listen closing.
   */
  lemma FixedSectionsPresent(f: Sections)
    ensures At(Render(f), Header, 0)
    ensures SectionPos(f, ImportsPart) == |Header|
    ensures At(Render(f), Bootstrap, SectionPos(f, BootstrapPart))
    ensures At(Render(f), Route, SectionPos(f, RoutePart))
    ensures At(Render(f), ListenOpen, SectionPos(f, ListenPart))
    ensures EndsWith(Render(f), ListenClose)
  {
    OffsetZero(Parts(f));
    SectionAt(f, 0);
    SectionAt(f, BootstrapPart);
    SectionAt(f, RoutePart);
    SectionAt(f, ListenPart);
    ConcatEndsWithLast(Parts(f));
  }

  /** The import section follows the header and ends a gap before the connectDB import section. */
  lemma ImportSectionAt(f: Sections)
    ensures At(Render(f), f.imports, |Header|)
    ensures |Header| + |f.imports| + |Gap| == SectionPos(f, ConnectImportPart)
  {
    OffsetZero(Parts(f));
    SectionAt(f, 0);
    SectionAt(f, 1);
    SectionAt(f, 2);
  }

  /**
   * One import line per package, in list order: the `i`-th package's line
   * occurs at `ImportPos(pkgs, i)`, and the first one starts right after the
   * header. `ImportsSeparated` and `LastImportEndsSection` say that nothing
   * else lies between or after the lines.
   */
  lemma ImportsInListOrder(pkgs: seq<string>, i: nat)
    requires i < |pkgs|
    ensures i == 0 ==> ImportPos(pkgs, i) == |Header|
    ensures At(MainFileText(pkgs), ImportLine(pkgs[i]), ImportPos(pkgs, i))
  {
    ImportLineAt(Synthesize(pkgs), pkgs, i);
  }

  /** A single line break separates each package's import line from the next package's. */
  lemma ImportsSeparated(pkgs: seq<string>, i: nat)
    requires i + 1 < |pkgs|
    ensures At(MainFileText(pkgs), "\n", ImportPos(pkgs, i) + |ImportLine(pkgs[i])|)
    ensures ImportPos(pkgs, i + 1) == ImportPos(pkgs, i) + |ImportLine(pkgs[i])| + 1
  {
    ImportLineNext(Synthesize(pkgs), pkgs, i);
  }

  /** The last package's import line is followed by exactly the blank line before the connectDB import section. */
  lemma LastImportEndsSection(pkgs: seq<string>)
    requires pkgs != []
    ensures var i := |pkgs| - 1;
      ImportPos(pkgs, i) + |ImportLine(pkgs[i])| + |Gap| == SectionPos(Synthesize(pkgs), ConnectImportPart)
  {
    ImportLineAt(Synthesize(pkgs), pkgs, |pkgs| - 1);
  }

  /** In any file whose import section joins the packages' import lines, the `i`-th line sits at `ImportPos`. */
  lemma ImportLineAt(f: Sections, pkgs: seq<string>, i: nat)
    requires f.imports == Join(ImportLines(pkgs), "\n") && i < |pkgs|
    ensures At(Render(f), ImportLine(pkgs[i]), ImportPos(pkgs, i))
    ensures i == 0 ==> ImportPos(pkgs, i) == |Header|
    ensures i + 1 == |pkgs| ==>
      ImportPos(pkgs, i) + |ImportLine(pkgs[i])| + |Gap| == SectionPos(f, ConnectImportPart)
  {
    var lines := ImportLines(pkgs);
    assert lines[i] == ImportLine(pkgs[i]);
    JoinedLineAt(f, lines, i);
  }

  /** In such a file a single line break follows the `i`-th import line, and the next line starts after it. */
  lemma ImportLineNext(f: Sections, pkgs: seq<string>, i: nat)
    requires f.imports == Join(ImportLines(pkgs), "\n") && i + 1 < |pkgs|
    ensures At(Render(f), "\n", ImportPos(pkgs, i) + |ImportLine(pkgs[i])|)
    ensures ImportPos(pkgs, i + 1) == ImportPos(pkgs, i) + |ImportLine(pkgs[i])| + 1
  {
    var lines := ImportLines(pkgs);
    assert lines[i] == ImportLine(pkgs[i]);
    JoinedLineNext(f, lines, i);
  }

  /** A line of an import section made by joining lines occurs at its place in the file. */
  lemma JoinedLineAt(f: Sections, lines: seq<string>, i: nat)
    requires f.imports == Join(lines, "\n") && i < |lines|
    ensures At(Render(f), lines[i], |Header| + JoinPos(lines, "\n", i))
    ensures i == 0 ==> JoinPos(lines, "\n", i) == 0
    ensures i + 1 == |lines| ==>
      |Header| + JoinPos(lines, "\n", i) + |lines[i]| + |Gap| == SectionPos(f, ConnectImportPart)
  {
    JoinAt(lines, "\n", i);
    JoinEnds(lines, "\n");
    ImportSectionAt(f);
    AtCompose(Render(f), f.imports, lines[i], |Header|, JoinPos(lines, "\n", i));
  }

  /** In such a section a single line break follows every line but the last, and the next line starts after it. */
  lemma JoinedLineNext(f: Sections, lines: seq<string>, i: nat)
    requires f.imports == Join(lines, "\n") && i + 1 < |lines|
    ensures At(Render(f), "\n", |Header| + JoinPos(lines, "\n", i) + |lines[i]|)
    ensures JoinPos(lines, "\n", i + 1) == JoinPos(lines, "\n", i) + |lines[i]| + 1
  {
    JoinNext(lines, "\n", i);
    ImportSectionAt(f);
    AtCompose(Render(f), f.imports, "\n", |Header|, JoinPos(lines, "\n", i) + |lines[i]|);
  }

  /** The connectDB import opens its section exactly when `mongoose` is listed. */
  lemma ConnectDBImportIffMongoose(pkgs: seq<string>)
    ensures At(MainFileText(pkgs), ConnectDBImport, SectionPos(Synthesize(pkgs), ConnectImportPart))
            <==> "mongoose" in pkgs
  {
    ConnectImportSection(Synthesize(pkgs));
  }

  /** With the connectDB import section either the import or empty, the import opens it exactly when present. */
  lemma ConnectImportSection(f: Sections)
    requires f.connectImport == ConnectDBImport || f.connectImport == ""
    ensures At(Render(f), ConnectDBImport, SectionPos(f, ConnectImportPart)) <==> f.connectImport == ConnectDBImport
  {
    SectionAt(f, ConnectImportPart);
    if f.connectImport == "" {
      SectionAt(f, BootstrapPart);
      assert ConnectDBImport[0] == 'i' && Bootstrap[0] == '\n';
      FirstCharsDiffer(Render(f), ConnectDBImport, Bootstrap, SectionPos(f, ConnectImportPart));
    }
  }

  /** The file ends with the listen block; it calls `connectDB()` exactly when `mongoose` is listed. */
  lemma ListenCallsConnectDBIffMongoose(pkgs: seq<string>)
    ensures EndsWith(MainFileText(pkgs), ListenOpen + ConnectDBCall + ListenClose) <==> "mongoose" in pkgs
    ensures "mongoose" !in pkgs ==> EndsWith(MainFileText(pkgs), ListenOpen + ListenClose)
  {
    var f := Synthesize(pkgs);
    EndsWithListenBlock(f);
    if "mongoose" !in pkgs {
      assert ListenOpen + f.connectCall + ListenClose == ListenOpen + ListenClose;
      ListenBlocksDiffer(MainFileText(pkgs));
    }
  }

  /** A rendered file ends with its listen block. */
  lemma EndsWithListenBlock(f: Sections)
    ensures EndsWith(Render(f), ListenOpen + f.connectCall + ListenClose)
  {
    var parts := Parts(f);
    assert parts == parts[..ListenPart] + [ListenOpen, f.connectCall, ListenClose];
    ConcatAppend(parts[..ListenPart], [ListenOpen, f.connectCall, ListenClose]);
    ConcatThree(ListenOpen, f.connectCall, ListenClose);
  }

  lemma ConcatThree(a: string, b: string, c: string)
    ensures Concat([a, b, c]) == a + b + c
  {
    assert [a, b, c][1..] == [b, c];
    assert [b, c][1..] == [c];
    assert [c][1..] == [];
    assert Concat([c]) == c;
    assert Concat([b, c]) == b + c;
  }

  /** No text ends with both the listen block without the call and the one with it. */
  lemma ListenBlocksDiffer(text: string)
    requires EndsWith(text, ListenOpen + ListenClose)
    ensures !EndsWith(text, ListenOpen + ConnectDBCall + ListenClose)
  {
    var without := ListenOpen + ListenClose;
    var with := ListenOpen + ConnectDBCall + ListenClose;
    var n := |text| - |ListenClose| - 1;
    assert ListenOpen[|ListenOpen| - 1] != ConnectDBCall[|ConnectDBCall| - 1];
    assert without[|without| - |ListenClose| - 1] == ListenOpen[|ListenOpen| - 1];
    assert with[|with| - |ListenClose| - 1] == ConnectDBCall[|ConnectDBCall| - 1];
    assert text[n] == without[|without| - |ListenClose| - 1];
    assert |with| <= |text| ==> text[|text| - |with|..][|with| - |ListenClose| - 1] == text[n];
  }

  /**
   * With `dotenv` listed the port section loads `.env` and takes the port
   * from the environment, falling back to 3000; without it the section is
   * exactly `const PORT = 3000;`.
   */
  lemma PortIffDotenv(pkgs: seq<string>)
    ensures At(MainFileText(pkgs), DotenvPort, SectionPos(Synthesize(pkgs), PortPart)) <==> "dotenv" in pkgs
    ensures "dotenv" !in pkgs ==> At(MainFileText(pkgs), FixedPort, SectionPos(Synthesize(pkgs), PortPart))
  {
    PortSection(Synthesize(pkgs));
  }

  /** With the port section one of the two forms, each form occurs there exactly when it is the section. */
  lemma PortSection(f: Sections)
    requires f.port == DotenvPort || f.port == FixedPort
    ensures At(Render(f), DotenvPort, SectionPos(f, PortPart)) <==> f.port == DotenvPort
    ensures f.port == FixedPort ==> At(Render(f), FixedPort, SectionPos(f, PortPart))
  {
    SectionAt(f, PortPart);
    if f.port == FixedPort {
      assert DotenvPort[0] == '\n' && FixedPort[0] == 'c';
      FirstCharsDiffer(Render(f), DotenvPort, FixedPort, SectionPos(f, PortPart));
    }
  }

  /** The dotenv port section: the `.env` load, then the port taken from the environment. */
  lemma DotenvPortLayout()
    ensures At(DotenvPort, DotenvConfig, |Gap|)
    ensures At(DotenvPort, EnvPort, |Gap + DotenvConfig + Gap|)
  {
    PrefixThenPart(Gap, DotenvConfig, Gap + EnvPort + "\n");
    assert DotenvPort == Gap + DotenvConfig + (Gap + EnvPort + "\n");
    PrefixThenPart(Gap + DotenvConfig + Gap, EnvPort, "\n");
  }

  // ---------------------------------------------------------------------
  // Middleware properties

  lemma MiddlewareLinesDistinct()
    ensures Distinct(MiddlewareLines)
  {
  }

  /**
   * A known middleware line appears exactly when its package is listed,
   * and the section holds no other line.
   */
  lemma MiddlewareIffListed(pkgs: seq<string>, line: string)
    ensures line in Middleware(pkgs) <==> line in MiddlewareLines && Needs(line) in pkgs
  {
    FilterMembers(MiddlewareLines, Wanted(pkgs), line);
  }

  /** Each middleware line appears at most once, whatever the list holds. */
  lemma MiddlewareAtMostOnce(pkgs: seq<string>)
    ensures Distinct(Middleware(pkgs))
  {
    MiddlewareLinesDistinct();
    FilterDistinct(MiddlewareLines, Wanted(pkgs));
  }

  /** Middleware lines appear in the fixed order of `MiddlewareLines`, not in list order. */
  lemma MiddlewareFixedOrder(pkgs: seq<string>, i: nat, j: nat)
    requires i < j < |Middleware(pkgs)|
    ensures Middleware(pkgs)[i] in MiddlewareLines && Middleware(pkgs)[j] in MiddlewareLines
    ensures IndexOf(MiddlewareLines, Middleware(pkgs)[i]) < IndexOf(MiddlewareLines, Middleware(pkgs)[j])
  {
    MiddlewareLinesDistinct();
    FilterKeepsOrder(MiddlewareLines, Wanted(pkgs), i, j);
  }

  /**
   * Every section except the imports depends only on which packages are
   * listed: reordering or repeating packages leaves them unchanged.
   */
  lemma SectionsDependOnSetOnly(a: seq<string>, b: seq<string>)
    requires forall p :: p in a <==> p in b
    ensures Synthesize(a).(imports := "") == Synthesize(b).(imports := "")
  {
    FilterCongruent(MiddlewareLines, Wanted(a), Wanted(b));
  }

  /** The middleware list as the sequence of conditional pushes that builds it. */
  lemma MiddlewareUnfold(pkgs: seq<string>)
    ensures Middleware(pkgs) ==
      (if "body-parser" in pkgs then [BodyParserJson, BodyParserUrlencoded] else [])
      + (if "cookie-parser" in pkgs then [CookieParserUse] else [])
      + (if "morgan" in pkgs then [MorganUse] else [])
      + (if "cors" in pkgs then [CorsUse] else [])
      + (if "method-override" in pkgs then [MethodOverrideUse] else [])
  {
    var keep := Wanted(pkgs);
    NeedsTable();
    FilterSix(BodyParserJson, BodyParserUrlencoded, CookieParserUse, MorganUse, CorsUse, MethodOverrideUse, keep);
    var m0: seq<string> := if "body-parser" in pkgs then [BodyParserJson] else [];
    var m1: seq<string> := if "body-parser" in pkgs then [BodyParserUrlencoded] else [];
    assert m0 + m1 == (if "body-parser" in pkgs then [BodyParserJson, BodyParserUrlencoded] else []);
  }

  /** A six-element filter written out. */
  lemma FilterSix<T>(x0: T, x1: T, x2: T, x3: T, x4: T, x5: T, keep: T -> bool)
    ensures Filter([x0, x1, x2, x3, x4, x5], keep) ==
      (if keep(x0) then [x0] else []) + (if keep(x1) then [x1] else [])
      + (if keep(x2) then [x2] else []) + (if keep(x3) then [x3] else [])
      + (if keep(x4) then [x4] else []) + (if keep(x5) then [x5] else [])
  {
    assert [x0, x1, x2, x3, x4, x5] == [x0, x1, x2] + [x3, x4, x5];
    FilterAppend([x0, x1, x2], [x3, x4, x5], keep);
    FilterThree(x0, x1, x2, keep);
    FilterThree(x3, x4, x5, keep);
    var a, b, c := (if keep(x0) then [x0] else []), (if keep(x1) then [x1] else []), (if keep(x2) then [x2] else []);
    var d, e, f := (if keep(x3) then [x3] else []), (if keep(x4) then [x4] else []), (if keep(x5) then [x5] else []);
    assert (a + b + c) + (d + e + f) == a + b + c + d + e + f;
  }

  lemma FilterThree<T>(x0: T, x1: T, x2: T, keep: T -> bool)
    ensures Filter([x0, x1, x2], keep) ==
      (if keep(x0) then [x0] else []) + (if keep(x1) then [x1] else []) + (if keep(x2) then [x2] else [])
  {
    FilterCons(x2, [], keep);
    assert [x2] + [] == [x2];
    FilterCons(x1, [x2], keep);
    assert [x1] + [x2] == [x1, x2];
    FilterCons(x0, [x1, x2], keep);
    assert [x0] + [x1, x2] == [x0, x1, x2];
  }

  /** The package each middleware line needs. */
  lemma NeedsTable()
    ensures Needs(BodyParserJson) == "body-parser" && Needs(BodyParserUrlencoded) == "body-parser"
    ensures Needs(CookieParserUse) == "cookie-parser" && Needs(MorganUse) == "morgan"
    ensures Needs(CorsUse) == "cors" && Needs(MethodOverrideUse) == "method-override"
  {
  }

  /**
   * `additionalConfigs` as the source builds it: one conditional push per
   * middleware package, in a fixed order.
   */
  method CollectMiddleware(pkgs: seq<string>) returns (configs: seq<string>)
    ensures configs == Middleware(pkgs)
  {
    ghost var m0: seq<string> := if "body-parser" in pkgs then [BodyParserJson, BodyParserUrlencoded] else [];
    ghost var m1: seq<string> := if "cookie-parser" in pkgs then [CookieParserUse] else [];
    ghost var m2: seq<string> := if "morgan" in pkgs then [MorganUse] else [];
    ghost var m3: seq<string> := if "cors" in pkgs then [CorsUse] else [];
    ghost var m4: seq<string> := if "method-override" in pkgs then [MethodOverrideUse] else [];
    configs := [];
    if "body-parser" in pkgs {
      configs := configs + [BodyParserJson];
      configs := configs + [BodyParserUrlencoded];
    }
    assert configs == m0;
    if "cookie-parser" in pkgs {
      configs := configs + [CookieParserUse];
    }
    assert configs == m0 + m1;
    if "morgan" in pkgs {
      configs := configs + [MorganUse];
    }
    assert configs == m0 + m1 + m2;
    if "cors" in pkgs {
      configs := configs + [CorsUse];
    }
    assert configs == m0 + m1 + m2 + m3;
    if "method-override" in pkgs {
      configs := configs + [MethodOverrideUse];
    }
    assert configs == m0 + m1 + m2 + m3 + m4;
    MiddlewareUnfold(pkgs);
  }
}
