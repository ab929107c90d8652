# bcdoc in Dafny

This project models bcdoc, the documentation generator of the AWS command line tools. The model covers five parts:

- **The ReST style.** `ReSTStyle` turns markup calls (headings, bold, code, lists, anchors, code blocks, tables of contents) into reStructuredText appended to a document buffer.
- **The doc-string parser callbacks.** `HelpParser` dispatches tags to the style and normalises text runs.
- **The paragraph-list document.** `Document` and `Paragraph` are what the man-page generator writes into.
- **The CLI handlers.** `clidocs` writes provider, service and operation help.
- **The event plumbing and the page generator.** `clidocevents` is the fixed table of documentation events, plus the order in which they are fired. `mangen` is the man/ReST page generator: operation, service and provider pages, JSON syntax examples, and tables of contents.

## Files and modules

| file | module | what it holds |
|---|---|---|
| `wrappers.dfy` | `Wrappers` | `Option`, `Result`, and the Python exceptions the model raises (`TypeError`, `IndexError`, `KeyError`, `AttributeError`). |
| `text.dfy` | `Text` | `str.split()` with no argument, `join`, splitting on a character, and lexicographic `sorted`. |
| `params.dfy` | `Params` | Parameters, operations, services and filters, as seen by the generator. `Dict` is an insertion-ordered dictionary. |
| `style.dfy` | `Style` | `RestBuffer`, the buffer the style writes to, and the class `ReSTStyle`. |
| `style.dfy` | `StyleExamples` | The outputs the style's unit tests pin down, derived from the model. |
| `document.dfy` | `DocumentModel` | The classes `Paragraph` and `Document`, in one module, because a paragraph reads its document's `keep_data`. |
| `htmlparser.dfy` | `HtmlParser` | The pure text normalisation, which style handlers return on a `Document`, and the class `HelpParser`. |
| `clidocs.dfy` | `CliDocs` | The CLI document handlers. |
| `clidocevents.dfy` | `DocEvents` | The event table, the event traces as specification functions, and the methods that fire them on a `Session`. |
| `mansyntax.dfy` | `ManSyntax` | The JSON syntax example (`_do_example`) as a function over the parameter tree, with its comma, indentation and brace-depth properties. |
| `manpages.dfy` | `ManPages` | Specification functions for every page section the generator writes, and their properties. |
| `mangen.dfy` | `ManGen` | The classes `OperationDocument`, `ServiceDocument` and `ProviderDocument`. Each method is proved to append exactly the lines of its `ManPages` function. |

### How the document is represented

A `Document` keeps its list of `Paragraph` objects, as the source does. Beside it, a ghost sequence `lines` holds one `Line(indent, text)` per paragraph, where the indentation is the paragraph's `initial_indent`.

`Document.Valid()` ties the two together. Every generator method states its effect as `doc.lines == old(doc.lines) + F(...)`, where `F` is a `ManPages` or `ManSyntax` function. The properties of the pages are then lemmas about those functions.

The doc-string parser, HTML tokenising and `textwrap.fill` are not modelled. Where the source feeds a doc string to the parser, the model takes a `render: string -> string` parameter: the text that feeding leaves in the current paragraph. The generator's calls `style.h1/h2/code/italics/ref(s)` become the text those methods produce at depth 0 with `do_p` on (`Style.H1Text`, `Style.H2Text`, `Style.CodeText`, …).

## Model

| member | source | states |
|---|---|---|
| Style.Spaces | bcdoc/style.py:33-34 | The indentation text is exactly `level * width` blanks. |
| Style.HeadingLayout | bcdoc/style.py:95-108 | With `do_p` on at depth 0, `h1`/`h2`/`h3` write two newlines, a border line of `*`, `=` or `-` as long as the title, the title, the border again and two newlines. |
| Style.InlineMarkupReadsBack | bcdoc/style.py:84-88 | The text `bold`, `italics` and `code` write reads back: what stands between the opening marker and the closing marker plus space is exactly the string, and an empty string leaves no markup. |
| Style.NoHref | bcdoc/style.py:164-172 | `start_a` without an `href` attribute leaves no anchor pending. |
| Style.TickCount | bcdoc/style.py:164-169 | `start_a` writes a backtick only for `href` attributes. |
| Style.RestBuffer.constructor | tests/unit/test_document.py:33-41 | A fresh buffer is empty, keeps data, does not translate, and has the given target. |
| Style.RestBuffer.Write | tests/unit/test_document.py:33-36 | `write(s)` appends `s`. |
| Style.RestBuffer.Writeln | tests/unit/test_document.py:38-41 | `writeln(s)` appends `s` and a newline. |
| Style.ReSTStyle.constructor | bcdoc/style.py:57-60 | The style starts at depth 0 with `do_p` on, no pending anchor, and the given document and width. |
| Style.ReSTStyle.BaseNewParagraph | bcdoc/style.py:23-24 | The base style's paragraph break is one newline followed by the indentation, returned rather than written. |
| Style.ReSTStyle.Indent | bcdoc/style.py:26-27 | The depth grows by one; nothing is written. |
| Style.ReSTStyle.Dedent | bcdoc/style.py:29-31 | The depth shrinks by one, but never below zero. |
| Style.ReSTStyle.NewParagraph | bcdoc/style.py:62-64 | Writes two newlines and the indentation only while `do_p` is on. |
| Style.ReSTStyle.NewLine | bcdoc/style.py:66-68 | Writes one newline and the indentation only while `do_p` is on. |
| Style.ReSTStyle.StartBold | bcdoc/style.py:70-71 | Writes `**`. |
| Style.ReSTStyle.EndBold | bcdoc/style.py:73-74 | Writes `** `. |
| Style.ReSTStyle.StartB | bcdoc/style.py:76-78 | Turns translation on and writes `**`. |
| Style.ReSTStyle.EndB | bcdoc/style.py:80-82 | Turns translation off and writes `** `. |
| Style.ReSTStyle.Bold | bcdoc/style.py:84-88 | Writes `**s** ` for a non-empty `s`, nothing for an empty one. |
| Style.ReSTStyle.Ref | bcdoc/style.py:90-93 | Writes ``:doc:`title <link>` ``, where the link defaults to the title. |
| Style.ReSTStyle.Heading | bcdoc/style.py:95-99 | A paragraph break, the border, the title, the border and a paragraph break. |
| Style.ReSTStyle.H1 | bcdoc/style.py:101-102 | A heading bordered with `*`. |
| Style.ReSTStyle.H2 | bcdoc/style.py:104-105 | A heading bordered with `=`. |
| Style.ReSTStyle.H3 | bcdoc/style.py:107-108 | A heading bordered with `-`. |
| Style.ReSTStyle.StartItalics | bcdoc/style.py:110-111 | Writes `*`. |
| Style.ReSTStyle.EndItalics | bcdoc/style.py:113-114 | Writes `* `. |
| Style.ReSTStyle.Italics | bcdoc/style.py:116-120 | Writes `*s* ` for a non-empty `s`, nothing for an empty one. |
| Style.ReSTStyle.StartP | bcdoc/style.py:122-124 | A paragraph break, only while `do_p` is on. |
| Style.ReSTStyle.EndP | bcdoc/style.py:126-128 | Two newlines without indentation, only while `do_p` is on. |
| Style.ReSTStyle.StartCode | bcdoc/style.py:130-132 | Turns translation on and writes two backticks. |
| Style.ReSTStyle.EndCode | bcdoc/style.py:134-136 | Turns translation off and writes two backticks and a space. |
| Style.ReSTStyle.Code | bcdoc/style.py:138-142 | Writes ``` ``s`` ``` for a non-empty `s`, nothing for an empty one. |
| Style.ReSTStyle.StartAdmonition | bcdoc/style.py:144-148 | A paragraph break, the directive line, and a paragraph break one level deeper; the depth grows by one. |
| Style.ReSTStyle.StartNote | bcdoc/style.py:144-148 | Opens a `.. note::` block one level deeper. |
| Style.ReSTStyle.EndNote | bcdoc/style.py:150-152 | Goes back one level and writes a paragraph break there. |
| Style.ReSTStyle.StartImportant | bcdoc/style.py:154-158 | Opens a `.. warning::` block one level deeper. |
| Style.ReSTStyle.EndImportant | bcdoc/style.py:160-162 | Goes back one level and writes a paragraph break there. |
| Style.ReSTStyle.StartA | bcdoc/style.py:164-172 | For each `href` attribute, stores the URL and writes a backtick; without attributes, writes one space; translation is turned on. |
| Style.ReSTStyle.EndA | bcdoc/style.py:174-180 | With a pending URL, writes `` <url>`_ `` and a space and clears the anchor; translation is turned off. |
| Style.ReSTStyle.StartI | bcdoc/style.py:182-184 | Turns translation on and writes `*`. |
| Style.ReSTStyle.EndI | bcdoc/style.py:186-188 | Turns translation off and writes `* `. |
| Style.ReSTStyle.StartLi | bcdoc/style.py:190-192 | `do_p` is switched off and `* ` is written. |
| Style.ReSTStyle.EndLi | bcdoc/style.py:194-196 | `do_p` is switched back on, then a line break (newline and indentation). |
| Style.ReSTStyle.Li | bcdoc/style.py:198-202 | For a non-empty item, `* `, the item, a newline and a line break; for an empty item, nothing. |
| Style.ReSTStyle.StartUl | bcdoc/style.py:204-205 | A paragraph break. |
| Style.ReSTStyle.EndUl | bcdoc/style.py:207-208 | A paragraph break. |
| Style.ReSTStyle.StartOl | bcdoc/style.py:210-212 | A paragraph break. |
| Style.ReSTStyle.EndOl | bcdoc/style.py:214-215 | A paragraph break. |
| Style.ReSTStyle.StartExamples | bcdoc/style.py:217-218 | The document stops keeping data. |
| Style.ReSTStyle.EndExamples | bcdoc/style.py:220-221 | The document keeps data again. |
| Style.ReSTStyle.StartFullname | bcdoc/style.py:223-224 | The document stops keeping data. |
| Style.ReSTStyle.EndFullname | bcdoc/style.py:226-227 | The document keeps data again. |
| Style.ReSTStyle.StartCodeblock | bcdoc/style.py:229-232 | Writes `::`, goes one level deeper and breaks the paragraph there. |
| Style.ReSTStyle.EndCodeblock | bcdoc/style.py:234-236 | Goes back one level and breaks the paragraph there. |
| Style.ReSTStyle.Codeblock | bcdoc/style.py:238-247 | Writes `::`, a break at depth+1, the code, a newline, and a break at the original depth; the depth is unchanged. |
| Style.ReSTStyle.TocTree | bcdoc/style.py:249-255 | For `html`, the fixed toctree header with `:maxdepth: 1` and `:titlesonly:`; otherwise a list opening. |
| Style.ReSTStyle.TocItem | bcdoc/style.py:257-264 | For `man`, the item as a list item; otherwise two blanks, the file name (or the item when there is none) and a newline. |
| StyleExamples.SpacesSequence | tests/unit/test_style.py:33-45 | With width 4: indent, indent, dedent, dedent, dedent gives the indentations "", 4, 8, 4, 0 and 0 blanks. |
| StyleExamples.H1Output | tests/unit/test_style.py:62-66 | `h1("foobar fiebaz")` writes the title between two 13-star borders. |
| StyleExamples.CodeblockOutput | tests/unit/test_style.py:94-98 | `codeblock("foobar")` writes `::`, a break, two blanks, `foobar`, and three newlines. |
| StyleExamples.TocTreeHtmlOutput | tests/unit/test_style.py:100-107 | With target `html`, the toctree header followed by `  foo` and `  bar` lines. |
| StyleExamples.TocTreeManOutput | bcdoc/style.py:249-264 | With target `man`, the output is `"\n\n* foo\n\n* bar\n\n"` (see Left out). |
| StyleExamples.ListItemBreaks | bcdoc/style.py:190-202 | Inside a list item, paragraph and line breaks write nothing; after `end_li` they write again, so `* x` is followed by exactly two newlines. |
| DocumentModel.AppendLast | bcdoc/paragraph.py:30-34 | Writing to the current paragraph changes only the last line: its text grows by the written string. |
| DocumentModel.Paragraph.constructor | bcdoc/paragraph.py:20-28 | A new paragraph has an empty buffer, no current character, the subsequent indent equal to the initial one, 0 lines before and 1 line after. |
| DocumentModel.Paragraph.Write | bcdoc/paragraph.py:30-34 | Appends `s` only when the document keeps data; after a non-empty accepted write, the current character is the last character of `s`; otherwise it is unchanged. |
| DocumentModel.Paragraph.Wrap | bcdoc/paragraph.py:36-43 | The result is `lines_before` newlines, the filled text, and `lines_after` newlines. |
| DocumentModel.Document.constructor | bcdoc/document.py:21-32 | A fresh document has no paragraphs, keeps data, does not translate, and starts at indent 0 and width 80, with a new style of its own. |
| DocumentModel.DocumentStyle.constructor | bcdoc/style.py:17-21 | The document's style starts at depth 0 with `do_p` on and no pending anchor. |
| DocumentModel.Document.Indent | bcdoc/document.py:37-38 | The indent counter grows by exactly one. |
| DocumentModel.Document.Dedent | bcdoc/document.py:40-41 | The indent counter shrinks by exactly one, with no clamping. |
| DocumentModel.Document.TranslateWords | bcdoc/document.py:43-44 | Same length and order; a word with a map entry is replaced by it, any other word is kept. |
| DocumentModel.Document.AddParagraph | bcdoc/document.py:46-49 | Appends exactly one fresh, empty paragraph at the current indent and returns it; the earlier ones are untouched. |
| DocumentModel.Document.GetCurrentParagraph | bcdoc/document.py:51-54 | Returns the last paragraph; on an empty list, the mis-called `add_paragraph` is a `TypeError`. |
| DocumentModel.Document.WriteParagraph | bcdoc/paragraph.py:30-34 | A write to the last paragraph extends only the last line, and only when data is kept. |
| DocumentModel.Document.AddLine | bcdoc/document.py:46-49 | `add_paragraph().write(s)`: one new paragraph holding `s` (if data is kept); the earlier ones are unchanged. |
| DocumentModel.Document.HandleData | bcdoc/document.py:66-72 | Nothing is written for empty data, when data is not kept, or for whitespace while the paragraph has no current character; otherwise the data is appended; on an empty paragraph list it is a `TypeError`. |
| DocumentModel.Document.DoTitle | bcdoc/document.py:56-58 | Adds exactly two paragraphs: the `h1` title and an empty one. |
| DocumentModel.Document.DoDescription | bcdoc/document.py:60-64 | Adds the `DESCRIPTION` heading; the parser's output follows only for a non-empty description. |
| HtmlParser.NormalizeData | bcdoc/htmlparser.py:65-75 | Empty data is an `IndexError` (from `data[-1]`); whitespace-only data becomes exactly one space. |
| HtmlParser.NormalizedText | bcdoc/htmlparser.py:69-74 | For data that is neither empty nor whitespace only, and a map whose replacements are single words: the words of the result are the translated words of the input; no whitespace run is longer than one space and none leads; a trailing space appears exactly when the input ends in whitespace. |
| HtmlParser.NormalizedKeepsWords | bcdoc/htmlparser.py:70-72 | With an empty translation map, the words are those of the input. |
| HtmlParser.SplitJoinSpace | bcdoc/htmlparser.py:70-74 | Splitting the space-joined words (with their trailing space) gives the words back. |
| HtmlParser.HelpParser.constructor | bcdoc/htmlparser.py:23-26 | A new parser has no unhandled tags. |
| HtmlParser.FirstHrefIsFirst | bcdoc/style.py:164-169 | The `href` that `start_a` stops at is the earliest one, and there is none exactly when no attribute is an `href`. |
| HtmlParser.NoTicksNoHref | bcdoc/style.py:164-169 | `start_a` writes no backtick exactly when no attribute is an `href`. |
| HtmlParser.StartReturnsIffSilent | bcdoc/style.py:70-236 | On a document, whose style has nowhere to write, a `start_<tag>` handler returns exactly when it would have written nothing. |
| HtmlParser.EndReturnsIffSilent | bcdoc/style.py:73-236 | On a document, an `end_<tag>` handler returns exactly when it would have written nothing. |
| HtmlParser.HelpParser.HandleStartTag | bcdoc/htmlparser.py:28-35 | A tag the style has no `start_` method for is recorded in order. A handled tag runs its handler on the document's style: `examples` and `fullname` stop keeping data and return; `p`, `ul` and `ol` return only with `do_p` off; `a` returns only with attributes and no `href`; every other handler raises `AttributeError` at its first `doc.write`, after the flag changes it makes before that write. Nothing is written to a paragraph. |
| HtmlParser.HelpParser.HandleEndTag | bcdoc/htmlparser.py:37-44 | A tag the style has no `end_` method for writes one space to the current paragraph (a `TypeError` when there is none). A handled tag runs its handler: `examples` and `fullname` keep data again and return; `p`, `ul`, `ol`, `note`, `important` and `codeblock` return only with `do_p` off (the last three dedent first, never below zero); `b`, `code`, `a` and `i` turn translation off, and `li` turns `do_p` on, before the write that raises `AttributeError`. Nothing is written to a paragraph. |
| HtmlParser.HelpParser.WriteSpace | bcdoc/htmlparser.py:43-44 | One space goes to the last paragraph, subject to `keep_data`; with no paragraph, `get_current_paragraph` raises `TypeError`. |
| HtmlParser.ExamplesHideData | bcdoc/style.py:217-221 | Between `<examples>` and `</examples>` any text run leaves the paragraphs as they were, and data is kept again afterwards. |
| HtmlParser.HelpParser.HandleData | bcdoc/htmlparser.py:65-75 | Empty data raises `IndexError`; otherwise the normalised text goes to the document's `handle_data`. |
| HtmlParser.ExamplesDropText | bcdoc/style.py:217-221 | `<examples>foo</examples>bar` leaves a fresh paragraph holding `bar`: text inside the tag is dropped, text after it is kept. |
| Text.TranslateWords | bcdoc/document.py:43-44 | Each word is mapped through the dictionary, or kept when it has no entry. |
| Text.SplitJoin | bcdoc/htmlparser.py:70-72 | Splitting a space-joined list of words gives the words back. |
| Text.Sort | bcdoc/mangen.py:29 | `sorted` returns an ascending permutation of its input. |
| Params.TypeNameKind | bcdoc/mangen.py:45-54 | A parameter's type name is `list`, `map`, `structure`, `string` or `boolean` exactly when its shape is. |
| Params.ScalarByName | bcdoc/mangen.py:16 | A parameter is scalar exactly when its type name is in `ScalarTypes`. |
| CliDocs.CliDocumentHandler.constructor | bcdoc/clidocs.py:24-36 | A new handler has an empty output, a style of width 2 at depth 0, and an empty translation map. |
| CliDocs.CliDocumentHandler.TranslateWords | bcdoc/clidocs.py:41-42 | Each word becomes `translation_map.get(w, w)`; the length and order are kept. |
| CliDocs.CliDocumentHandler.HandleData | bcdoc/clidocs.py:44-52 | Writes the data only when it is non-empty and data is kept. |
| CliDocs.CliDocumentHandler.IncludeDocString | bcdoc/clidocs.py:54-56 | An empty or absent doc string writes nothing; any other is rendered. |
| CliDocs.FormatWithoutFields | bcdoc/clidocs.py:82 | A choices name without a `{provider}` field is formatted unchanged. |
| CliDocs.FirstUnresolvable | bcdoc/clidocs.py:76-84 | Every option before the returned index can be resolved; the one at the index cannot. |
| CliDocs.ResolvedStep | bcdoc/clidocs.py:76-84 | Resolving one more option changes only that option, and does not change an option whose choices are already a list. |
| CliDocs.ProviderDocumentHandler.constructor | bcdoc/clidocs.py:61-63 | A new provider handler has no cached CLI data. |
| CliDocs.FetchOnce | bcdoc/clidocs.py:73-85 | After the first fetch the data is cached, and every later call returns the cached object whatever its arguments. |
| CliDocs.FetchResolves | bcdoc/clidocs.py:73-85 | The first fetch succeeds exactly when every non-list choices value names session data; then each long option's choices are a list, every other option is unchanged, and `metavar`/`help` are kept. |
| CliDocs.ProviderDocumentHandler.GetCliData | bcdoc/clidocs.py:73-85 | The cache and the result follow `FetchCliData`. |
| CliDocs.ChoicesSorted | bcdoc/clidocs.py:118 | The choices are listed as an ascending permutation of the option's choices. |
| CliDocs.ListDoPAnyItem | bcdoc/style.py:198-202 | After a run of `li` calls, `do_p` is on exactly when it was on before or some item was non-empty. |
| CliDocs.OptionsBodySkips | bcdoc/clidocs.py:106 | Options whose names do not start with `--` contribute nothing. |
| CliDocs.OptionTextSplit | bcdoc/clidocs.py:107-120 | An option's text is its head (usage in code, help) followed by its sorted choices. |
| CliDocs.ProviderDocumentHandler.WriteChoices | bcdoc/clidocs.py:118-119 | One `li` per choice, in order. |
| CliDocs.ProviderDocumentHandler.WriteOptionHead | bcdoc/clidocs.py:107-115 | The option name, plus ` <metavar>` when present, in code, then its help. |
| CliDocs.ProviderDocumentHandler.WriteList | bcdoc/clidocs.py:116-120 | The sorted choices as a list, one level deeper. |
| CliDocs.ProviderDocumentHandler.WriteOption | bcdoc/clidocs.py:106-120 | One option's whole text. |
| CliDocs.ProviderDocumentHandler.WriteEntry | bcdoc/clidocs.py:105-120 | One more dictionary entry of the options body. |
| CliDocs.ProviderDocumentHandler.WriteOptions | bcdoc/clidocs.py:105-120 | The options body for every entry, in dictionary order; `do_translation` ends off after any `--` option and is otherwise unchanged. |
| CliDocs.OptionsTranslationAny | bcdoc/clidocs.py:105-120 | After the options, translation is on exactly when it was on before and no entry is a `--` option, whose usage `code` turns it off. |
| CliDocs.ProviderDocumentHandler.Options | bcdoc/clidocs.py:102-121 | The `Options` heading, then the body over the fetched data; when a choices lookup fails, only the heading is written and the error is returned. |
| CliDocs.SubitemIsTocItem | bcdoc/clidocs.py:127-131 | Outside man pages a provider's sub-item is exactly the `tocitem` line for the service's `index` page, and a service's the `tocitem` line for the operation; in man pages a sub-item is the `tocitem` bullet without the blank line and indentation `tocitem` adds after it. |
| CliDocs.ProviderDocumentHandler.Subitem | bcdoc/clidocs.py:127-131 | Writes the provider sub-item for the handler's target. |
| CliDocs.ServiceSubitem | bcdoc/clidocs.py:157-161 | Writes the service sub-item for the handler's target. |
| CliDocs.SynopsisOptionShape | bcdoc/clidocs.py:194-200 | The option is bracketed exactly when it is not required; it starts with the CLI name and ends in ` <value>` exactly when it is not boolean. |
| CliDocs.SynopsisOption | bcdoc/clidocs.py:194-200 | Writes four blanks, the synopsis option and a newline. |
| CliDocs.OperationOptions | bcdoc/clidocs.py:202-205 | The `Options` heading, then `*None*` and a newline exactly when there are no parameters. |
| CliDocs.OperationOption | bcdoc/clidocs.py:207-212 | ``` ``name`` (type) ``` and a newline, the rendered documentation, and a paragraph break; the depth is unchanged. |
| DocEvents.TemplateArity | bcdoc/clidocevents.py:16-30 | Synopsis-option, option, option-example and sub-item templates have three `%s` placeholders; all others have two. |
| DocEvents.TableKeys | bcdoc/clidocevents.py:16-30 | The table has 13 distinct event names, one per event. |
| DocEvents.FormatArity | bcdoc/clidocevents.py:32-34 | Formatting a template succeeds exactly when it gets as many arguments as it has placeholders. |
| DocEvents.SynopsisOptionEvents | bcdoc/clidocevents.py:112-116 | One synopsis-option event per argument, in order. |
| DocEvents.SubitemEvents | bcdoc/clidocevents.py:59-63 | One sub-item event per command, in order. |
| DocEvents.OptionPairs | bcdoc/clidocevents.py:48-54 | The i-th argument gives an option event immediately followed by its option-example event. |
| DocEvents.ProviderTrace | bcdoc/clidocevents.py:36-65 | A provider fires 8 + 2n + m events; each option event is followed by the example for the same argument; every event is in the table and gets as many arguments as its template needs. |
| DocEvents.ServiceTrace | bcdoc/clidocevents.py:67-95 | A service fires 8 + m events, none of them about options; all are well formed. |
| DocEvents.CommandTrace | bcdoc/clidocevents.py:97-102 | A command fires exactly the title and then the description. |
| DocEvents.OperationTrace | bcdoc/clidocevents.py:104-136 | An operation fires 7 + 3n events: title, description, synopsis start, n synopsis options, synopsis end, options start, n option/example pairs, options end, examples. |
| DocEvents.OperationTraceShape | bcdoc/clidocevents.py:104-136 | Every event an operation fires is well formed, and options come in pairs. |
| DocEvents.Session.constructor | bcdoc/clidocevents.py:32-34 | A new session has fired and registered nothing. |
| DocEvents.Session.Fire | bcdoc/clidocevents.py:32-34 | Firing appends one event to the trace. |
| DocEvents.Session.RegisterEvent | bcdoc/clidocevents.py:141-142 | Registering appends one name/template pair. |
| DocEvents.FireOptions | bcdoc/clidocevents.py:48-54 | Fires exactly `OptionEvents` for the argument table. |
| DocEvents.FireSubitems | bcdoc/clidocevents.py:59-63 | Fires exactly `SubitemEvents` for the command table. |
| DocEvents.FireSynopsisOptions | bcdoc/clidocevents.py:112-116 | Fires exactly `SynopsisOptionEvents` for the argument table. |
| DocEvents.FireProviderHead | bcdoc/clidocevents.py:38-47 | Fires title, description, synopsis start, synopsis end and options start for the provider. |
| DocEvents.DocumentProvider | bcdoc/clidocevents.py:36-65 | The trace grows by exactly the provider trace. |
| DocEvents.DocumentService | bcdoc/clidocevents.py:67-95 | The trace grows by exactly the service trace. |
| DocEvents.DocumentCommand | bcdoc/clidocevents.py:97-102 | The trace grows by exactly the command trace. |
| DocEvents.DocumentOperation | bcdoc/clidocevents.py:104-136 | The trace grows by exactly the operation trace. |
| DocEvents.Registrations | bcdoc/clidocevents.py:139-142 | One name/template pair per key of the table. |
| DocEvents.RegisterEvents | bcdoc/clidocevents.py:139-142 | Registers exactly `Registrations()`. |
| DocEvents.RegistersEachOnce | bcdoc/clidocevents.py:139-142 | Registration covers all 13 events, each with its template, and no name twice. |
| ManSyntax.Quoted | bcdoc/mangen.py:48 | One quoted string per choice. |
| ManSyntax.ExampleValueNameByType | bcdoc/mangen.py:44-54 | A string with an enum gives its quoted choices joined by `\|`; a plain string gives `"string"`; a boolean gives `true\|false`; anything else gives its type name. |
| ManSyntax.ExampleValueNameChoices | bcdoc/mangen.py:45-48 | Splitting an enum's placeholder on `\|` gives back each choice in quotes, in order. |
| ManSyntax.Example | bcdoc/mangen.py:56-113 | The example starts and ends at the indentation it was given. |
| ManSyntax.ListExample | bcdoc/mangen.py:58-68 | A list example starts and ends at the given indentation. |
| ManSyntax.MapExample | bcdoc/mangen.py:69-83 | A map example starts and ends at the given indentation. |
| ManSyntax.StructureExample | bcdoc/mangen.py:84-113 | A structure example starts and ends at the given indentation. |
| ManSyntax.MapEntry | bcdoc/mangen.py:73-80 | The key line is at the given indentation. |
| ManSyntax.Member | bcdoc/mangen.py:89-107 | A member's first line is its head at the given indentation. |
| ManSyntax.Blocks | bcdoc/mangen.py:88-110 | One block per structure member. |
| ManSyntax.BlockIsMember | bcdoc/mangen.py:88-110 | Each block is its member's lines, with a comma unless it is the last member. |
| ManSyntax.BlockComma | bcdoc/mangen.py:108-110 | A member's block ends in a comma exactly when it is not the last member. |
| ManSyntax.MemberNoComma | bcdoc/mangen.py:89-107 | A member's own lines never end in a comma. |
| ManSyntax.ExampleClosed | bcdoc/mangen.py:56-113 | An example's last paragraph closes a bracket or brace (or is empty when data is not kept). |
| ManSyntax.ExampleIndented | bcdoc/mangen.py:56-113 | No line of an example is shallower than where it started. |
| ManSyntax.ListIndented | bcdoc/mangen.py:58-68 | No line of a list example is shallower than where it started. |
| ManSyntax.MapIndented | bcdoc/mangen.py:69-83 | No line of a map example is shallower than where it started. |
| ManSyntax.StructureIndented | bcdoc/mangen.py:84-113 | No line of a structure example is shallower than where it started. |
| ManSyntax.MemberIndented | bcdoc/mangen.py:89-107 | No line of a member is shallower than its head. |
| ManSyntax.ExampleDepth | bcdoc/mangen.py:56-113 | The bracket depth of an example is 0 as corrected, and as written it is the number of nested structure members. |
| ManSyntax.StructureDepth | bcdoc/mangen.py:84-113 | The same bracket count for the structure branch. |
| ManSyntax.ListDepth | bcdoc/mangen.py:58-68 | The same bracket count for the list branch. |
| ManSyntax.MapDepth | bcdoc/mangen.py:69-83 | The same bracket count for the map branch. |
| ManSyntax.MemberDepth | bcdoc/mangen.py:89-107 | The same bracket count for one member. |
| ManSyntax.HeadDepth | bcdoc/mangen.py:93-94 | A structure member's head opens a brace only as written. |
| ManSyntax.ExampleBalanced | bcdoc/mangen.py:56-113 | With the corrected member head, every example's brackets and braces balance. |
| ManSyntax.AsWrittenUnbalanced | bcdoc/mangen.py:93-96 | As written, a structure with one empty structure member `inner` gets the line `"inner": {` and an unclosed brace. |
| ManPages.ExampleSectionKinds | bcdoc/mangen.py:115-130 | A syntax section is written exactly for list, structure and map parameters; it stays at or below the starting indentation and ends with an empty paragraph there. |
| ManPages.ParameterHeadByName | bcdoc/mangen.py:145-152 | The type shows as `list of <member>` exactly for lists of scalars; ` \| false_name` appears exactly for booleans with a false name. |
| ManPages.FieldParameters | bcdoc/mangen.py:156-158 | One entry per structure field. |
| ManPages.ParameterIndented | bcdoc/mangen.py:138-164 | A parameter's entry starts at the current indent, never goes shallower, and ends with an empty paragraph there. |
| ManPages.SubIndented | bcdoc/mangen.py:156-162 | The sub-parameters never go shallower than one level deeper. |
| ManPages.SplitKeepsOrder | bcdoc/mangen.py:169-171 | The required and optional groups interleave to the original list, hold only required and only optional parameters, and together are a permutation of it. |
| ManPages.RequiredSynopses | bcdoc/mangen.py:181-188 | One synopsis block per required parameter. |
| ManPages.OptionalSynopses | bcdoc/mangen.py:189-194 | One synopsis block per optional parameter. |
| ManPages.OutputFileOnlyWhenStreaming | bcdoc/mangen.py:195-197 | `output_file` appears in the synopsis exactly when the operation is streaming. |
| ManPages.ParameterEntries | bcdoc/mangen.py:201-203 | One entry per parameter of the group. |
| ManPages.NoneOnlyWhenEmpty | bcdoc/mangen.py:200-211 | An empty group is its heading and `None`; a non-empty group ends with an empty paragraph. |
| ManPages.EntryClosed | bcdoc/mangen.py:201-203 | Each parameter entry ends with an empty paragraph at the current indent. |
| ManPages.FilterNames | bcdoc/mangen.py:29 | The filter names are visited in ascending order, and each name exactly once. |
| ManPages.FilterBlocks | bcdoc/mangen.py:30-42 | One block per filter name. |
| ManPages.LastAssignmentWins | bcdoc/mangen.py:132-136 | After a run of assignments, a key holds the value of its last assignment. |
| ManPages.UnassignedKept | bcdoc/mangen.py:132-136 | A key that is never assigned keeps its old entry, or stays absent. |
| ManPages.AssignedKeys | bcdoc/mangen.py:132-136 | The keys afterwards are the old keys plus the assigned ones. |
| ManPages.OperationNameWins | bcdoc/mangen.py:132-136 | On a name clash, the operation's `cli_name` wins over a parameter's. |
| ManPages.ParameterNameKept | bcdoc/mangen.py:133-134 | A parameter name that no operation shares maps to the parameter's `cli_name`. |
| ManPages.OperationCliNames | bcdoc/mangen.py:274 | One CLI name per operation. |
| ManPages.NameLines | bcdoc/mangen.py:276-277 | One paragraph per name. |
| ManPages.Bullets | bcdoc/mangen.py:286-289 | One bullet per item. |
| ManPages.ItemsTextJoin | bcdoc/mangen.py:286-289 | The list items' text is the bullets joined by newlines, ending in a newline. |
| ManPages.BulletsReadBack | bcdoc/mangen.py:286-289 | Splitting the items' text on newlines gives back `* item` for each item, in order. |
| ManPages.IndexPages | bcdoc/mangen.py:334-335 | One `name/index` entry per service. |
| ManPages.OptionBlocks | bcdoc/mangen.py:351-370 | One block per option entry. |
| ManPages.OptionShape | bcdoc/mangen.py:351-370 | An option contributes nothing exactly when its name does not start with `--`; otherwise its usage in code comes first, and everything after sits one level deeper. |
| ManGen.WriteItem | bcdoc/mangen.py:287-289 | `start_li`, the item, `end_li`: the current paragraph grows by `* item` and a newline. |
| ManGen.WriteItems | bcdoc/mangen.py:286-289 | The current paragraph grows by the list items' text. |
| ManGen.WriteBulletList | bcdoc/mangen.py:285-289 | `start_ul`'s break, then the items, in one paragraph. |
| ManGen.WriteNames | bcdoc/mangen.py:276-277 | One paragraph per name, in order. |
| ManGen.WriteTitleAndDescription | bcdoc/document.py:56-64 | The title lines, then the description lines. |
| ManGen.WriteTocTree | bcdoc/mangen.py:269-278 | The toctree directive, its options one level deeper, and the names. |
| ManGen.Assign | bcdoc/mangen.py:133-136 | The translation map becomes `Assigned(old map, pairs)`. |
| ManGen.OperationDocument.constructor | bcdoc/mangen.py:21-23 | The operation document wraps the given document. |
| ManGen.OperationDocument.BuildTranslationMap | bcdoc/mangen.py:132-136 | The parameter names are assigned, then the operation names of the service. |
| ManGen.OperationDocument.Build | bcdoc/mangen.py:249-253 | Appends exactly the operation page: title, description, parameters, filters; the indent is restored. |
| ManGen.OperationDocument.DoParameters | bcdoc/mangen.py:166-219 | Appends exactly the synopsis and the parameter sections; the indent is restored. |
| ManGen.OperationDocument.WriteSynopsis | bcdoc/mangen.py:172-199 | Appends the synopsis heading, the command line and the argument synopses. |
| ManGen.OperationDocument.WriteSynopsisHead | bcdoc/mangen.py:172-179 | The `SYNOPSIS` heading, `::`, an empty paragraph, and the command line. |
| ManGen.OperationDocument.WriteSynopsisArguments | bcdoc/mangen.py:180-198 | One level deeper, the required, the optional and the streaming synopses. |
| ManGen.OperationDocument.WriteArguments | bcdoc/mangen.py:181-197 | The required, then the optional synopses, then `output_file` when streaming. |
| ManGen.OperationDocument.WriteRequiredSynopses | bcdoc/mangen.py:181-188 | One synopsis block per required parameter, in order. |
| ManGen.OperationDocument.WriteRequiredSynopsis | bcdoc/mangen.py:182-188 | `name <value>`, or for a boolean `name ` and then a paragraph with its false name. |
| ManGen.OperationDocument.WriteOptionalSynopses | bcdoc/mangen.py:189-194 | One synopsis per optional parameter, in order. |
| ManGen.OperationDocument.WriteOptionalSynopsis | bcdoc/mangen.py:190-194 | `[name <value>]`, or `[name ]` for a boolean. |
| ManGen.OperationDocument.WriteParameterSections | bcdoc/mangen.py:200-219 | The required section, the optional section, and for a streaming operation the positional argument. |
| ManGen.OperationDocument.WriteSection | bcdoc/mangen.py:200-211 | The heading, then each parameter's entry, or `None` for an empty group. |
| ManGen.OperationDocument.WriteEntries | bcdoc/mangen.py:201-203 | One entry per parameter, in order. |
| ManGen.OperationDocument.WriteEntry | bcdoc/mangen.py:202-203 | The parameter's description followed by its syntax example. |
| ManGen.OperationDocument.WritePositional | bcdoc/mangen.py:212-219 | The `POSITIONAL ARGUMENTS` heading, `output_file (blob)`, and `The output file` one level deeper. |
| ManGen.OperationDocument.DoParameter | bcdoc/mangen.py:138-164 | Appends the head, the sub-parameters one level deeper, and an empty paragraph; the indent is restored. |
| ManGen.OperationDocument.WriteParameterHead | bcdoc/mangen.py:139-155 | The head paragraph (name in code, false name, type, documentation), leaving the indent one deeper. |
| ManGen.OperationDocument.WriteNameAndFalseName | bcdoc/mangen.py:139-151 | `py_name` for sub-items, `cli_name` otherwise, in code, and ` \| false_name` for a boolean with one. |
| ManGen.OperationDocument.WriteSubParameters | bcdoc/mangen.py:156-162 | A structure's fields, or a non-scalar list's member, as sub-items. |
| ManGen.OperationDocument.WriteFieldParameters | bcdoc/mangen.py:157-158 | One sub-item entry per field, in order. |
| ManGen.OperationDocument.DoFilters | bcdoc/mangen.py:25-42 | Nothing without filters; otherwise the `FILTERS` heading, an empty paragraph, and each filter in name order. |
| ManGen.OperationDocument.WriteFilters | bcdoc/mangen.py:30-42 | One filter block per name, in order. |
| ManGen.OperationDocument.WriteFilter | bcdoc/mangen.py:31-42 | The name in code, then the body one level deeper; the indent is restored. |
| ManGen.OperationDocument.WriteFilterBody | bcdoc/mangen.py:34-41 | An empty paragraph, the rendered documentation if any, and `Valid Values: ` with the choices joined by `\|` if any. |
| ManGen.OperationDocument.DoExample | bcdoc/mangen.py:115-130 | Appends the syntax section for list, structure and map parameters and nothing otherwise; the indent is restored. |
| ManGen.OperationDocument.WriteSyntaxSection | bcdoc/mangen.py:121-130 | The syntax block, then an empty paragraph at the starting indent. |
| ManGen.OperationDocument.WriteSyntaxBlock | bcdoc/mangen.py:121-129 | The block one level deeper, with the indent restored. |
| ManGen.OperationDocument.WriteSyntaxLines | bcdoc/mangen.py:122-128 | The italic title with `::`, then the body one level deeper. |
| ManGen.OperationDocument.WriteSyntaxBody | bcdoc/mangen.py:125-127 | An empty paragraph and the example. |
| ManGen.OperationDocument.WriteExample | bcdoc/mangen.py:56-113 | `_do_example` appends exactly `Example` (the corrected member head), and the indent counter is left as it was on every branch. |
| ManGen.OperationDocument.WriteList | bcdoc/mangen.py:57-68 | Appends exactly the list example. |
| ManGen.OperationDocument.WriteScalarList | bcdoc/mangen.py:59-61 | `[`, the member's placeholder, `, ...]` on one line. |
| ManGen.OperationDocument.WriteNestedList | bcdoc/mangen.py:62-68 | `[`, the member one level deeper, `...`, and `]` back at the starting indent. |
| ManGen.OperationDocument.WriteListTail | bcdoc/mangen.py:65-68 | `...` one level deeper, then `]`. |
| ManGen.OperationDocument.WriteMap | bcdoc/mangen.py:69-83 | Appends exactly the map example. |
| ManGen.OperationDocument.WriteMapEntry | bcdoc/mangen.py:72-80 | The key placeholder, then a scalar value on the same line or the nested member one level deeper. |
| ManGen.OperationDocument.WriteNestedEntry | bcdoc/mangen.py:77-80 | The nested member example one level deeper, with the indent restored. |
| ManGen.OperationDocument.WriteMapTail | bcdoc/mangen.py:81-83 | `...` one level deeper, then `}`. |
| ManGen.OperationDocument.WriteStructure | bcdoc/mangen.py:84-113 | Appends exactly the structure example. |
| ManGen.OperationDocument.WriteMembers | bcdoc/mangen.py:88-110 | Each member's block in order, commas after all but the last. |
| ManGen.OperationDocument.WriteMember | bcdoc/mangen.py:89-110 | One member's lines, then the separator. |
| ManGen.OperationDocument.WriteSeparator | bcdoc/mangen.py:108-110 | A comma on the current paragraph unless this is the last member. |
| ManGen.OperationDocument.WriteMemberLines | bcdoc/mangen.py:89-107 | Appends exactly `Member` for the field. |
| ManGen.OperationDocument.WriteFlatMember | bcdoc/mangen.py:90-92 | `"name": placeholder` for a scalar member. |
| ManGen.OperationDocument.WriteNestedMember | bcdoc/mangen.py:93-107 | `"name": `, then the member's example one level deeper. |
| ManGen.ServiceDocument.constructor | bcdoc/mangen.py:258-260 | The service document wraps the given document. |
| ManGen.ServiceDocument.BuildTranslationMap | bcdoc/mangen.py:262-264 | Each operation's name maps to its CLI name, the last one winning. |
| ManGen.ServiceDocument.Build | bcdoc/mangen.py:302-308 | Appends exactly the service page: title, description, and the man or the ReST table of contents. |
| ManGen.ServiceDocument.DoToc | bcdoc/mangen.py:266-278 | The heading and the toctree over the operation CLI names in ascending order. |
| ManGen.ServiceDocument.DoManToc | bcdoc/mangen.py:280-290 | The heading, then the sorted operation CLI names as a bullet list, then an empty paragraph. |
| ManGen.ServiceDocument.DoOperationSummary | bcdoc/mangen.py:292-300 | The reference one level deeper and the documentation two levels deeper; the indent is restored. |
| ManGen.ServiceDocument.WriteSummaryDocumentation | bcdoc/mangen.py:295-298 | An empty paragraph that receives the rendered documentation, if any. |
| ManGen.ProviderDocument.constructor | bcdoc/mangen.py:311 | The provider document wraps the given document. |
| ManGen.ProviderDocument.DoUsage | bcdoc/mangen.py:313-315 | The `aws` heading, then the rendered usage. |
| ManGen.ProviderDocument.DoSynopsis | bcdoc/mangen.py:317-323 | `::`, an empty paragraph, the synopsis one level deeper, and an empty paragraph back at the start. |
| ManGen.ProviderDocument.DoToc | bcdoc/mangen.py:325-336 | The heading and the toctree over `name/index` for every service, in ascending order. |
| ManGen.ProviderDocument.DoManToc | bcdoc/mangen.py:338-347 | The heading, then the sorted service names as a bullet list. |
| ManGen.ProviderDocument.DoOptions | bcdoc/mangen.py:349-370 | The `OPTIONS` heading, then a block for each option whose name starts with `--`. |
| ManGen.ProviderDocument.WriteOptions | bcdoc/mangen.py:351-370 | One option block per dictionary entry, in order. |
| ManGen.ProviderDocument.WriteOption | bcdoc/mangen.py:352-370 | Appends exactly that option's lines. |
| ManGen.ProviderDocument.WriteOptionHead | bcdoc/mangen.py:354-362 | The usage (with ` <metavar>` when present) in code, and the help one level deeper. |
| ManGen.ProviderDocument.WriteChoices | bcdoc/mangen.py:363-370 | The sorted choices as list items, on the current paragraph. |
| ManGen.WriteSortedItems | bcdoc/mangen.py:366-369 | The current paragraph grows by the list items of the sorted choices. |
| ManGen.ChoicesAppended | bcdoc/mangen.py:363-370 | An option's choices extend the last paragraph of its head, not a new paragraph. |

## Left out

**Not modelled**

- The doc-string parser (`DocStringParser`, `bcdoc/docstringparser.py`) and `ReSTDocument`/`DocumentStructure` (`bcdoc/restdoc.py`) are not part of this model. Feeding a doc string is a `render` parameter.
- HTML tokenising is inherited from a library. Tags and text reach the model as callback inputs. Whether the style has a handler for a tag is the fixed set `StyleTags`. Every handler returns `None`, so the parser's write of a handler's result (htmlparser.py:32-33, 41-42) never happens and is not modelled.
- `textwrap.fill` in `Paragraph.wrap` (paragraph.py:36-43) is a library call, so it is a parameter.
- DocumentModel.Paragraph.Wrap: the source calls `self.doc.style.spaces(self.initial_indent)`, but `spaces()` takes no argument, so every call raises `TypeError` before anything is filled. The model states what a successful fill would return, with the indentation counters handed to the fill function; the `TypeError` is not modelled.
- `Document.render` and `Document.build` (document.py:74-80) write to an output stream or dispatch to subclasses; they are I/O.
- The session and event bus are left out. `register`, `emit`, `create_event`, `get_data` and `get_available_services` are foreign calls.
  - Events are a trace on a `Session` object.
  - `get_data` is a map of session data.
  - The available services are a parameter.
  - The `add-syntax-example` event emitted by `do_example` (mangen.py:117-120) is not in the trace.
- The `UnicodeEncodeError` fallback of `handle_data` (clidocs.py:49-52) concerns byte encoding; the buffer is a string.
- The dead first `handle_data` in htmlparser.py (46-63) is shadowed by the second one.
- The clidocs handlers `initialize`, `title`, `description`, `synopsis`, `subitems` and `build_translation_map` (clidocs.py:38-39, 65-71, 87-100, 123-125, 136-155, 166-192) are not modelled. They are one-line writes through session calls and the parser.
- Broken code in mangen.py is not modelled:
  - `_build_output`/`do_output` (221-247) use undefined names.
  - `gen_man` (386-403) uses the undefined `provider`.
  - `ProviderDocument.build` (372-383) passes the session as a title, calls `do_options` with one argument too many (379), and passes an argument to `do_man_toc`/`do_toc`, which take none.
- `setup.py` is packaging.

**Modelled differently from the source**

- DocumentModel.Document.DoTitle, DocumentModel.Document.DoDescription, ManGen.WriteTitleAndDescription, ManGen.OperationDocument.Build and ManGen.ServiceDocument.Build: `do_title` and `do_description` (document.py:57, 61) call `self.style.h1(title)` and `self.style.h2('DESCRIPTION')` on the document's own style, whose `new_paragraph` calls `doc.write` (style.py:62-64, 95-105), which `Document` does not define. The source raises `AttributeError` after one empty paragraph has been appended, and `do_description` never feeds the description. These members write the heading (and the rest) as if the call succeeded; the `AttributeError` is not modelled.
- The style calls in the generator: in mangen, `self.style.h2(...)`, `code`, `italics` and `ref` return `None` and call `doc.write`, which `Document` does not define, so they raise `AttributeError`. The model writes the text those methods produce at depth 0 with `do_p` on, as a fragment of the paragraph. The style itself (`Style.ReSTStyle`) is modelled on a `RestBuffer` with `write`/`writeln`.
- ManGen.WriteItem, ManGen.WriteItems, ManGen.WriteNextItem, ManGen.WriteBulletList, ManGen.WriteSortedItems, ManGen.ServiceDocument.DoManToc, ManGen.ProviderDocument.DoManToc, ManGen.ProviderDocument.DoOptions, ManGen.ProviderDocument.WriteOptions, ManGen.ProviderDocument.WriteOption and ManGen.ProviderDocument.WriteChoices: the source's `start_ul`, `start_li` and `end_li` calls (mangen.py:285-289, 343-347, 366-369) also reach `doc.write` on a `Document` and raise `AttributeError`. These members write the list text as if the calls succeeded; the `AttributeError` is not modelled.
- Inheritance is modelled as composition:
  - `OperationDocument`, `ServiceDocument` and `ProviderDocument` each hold a `Document`.
  - `ProviderDocumentHandler` holds a `CliDocumentHandler`.
  - The service and operation handlers are module-level methods over a `CliDocumentHandler`.
- CliDocs.CliDocumentHandler.constructor: `ReSTStyle(self)` makes the handler itself the style's document (clidocs.py:29), but the handler has no `write` method. The model has the style write to the handler's output buffer `fp`.
- The unused `substructure` argument of `do_parameter` is dropped.
- Python objects are modelled as datatypes:
  - Parameter types are a `Shape` datatype, so `hasattr(param, 'enum')` and `hasattr(operation, 'filters')` become `Option` fields.
  - Dictionaries the source iterates are an insertion-ordered `Dict`, in which the first matching key is looked up.
- CliDocs.FormatWithoutFields: `str.format(provider=...)` is modelled only for `{provider}` fields (`FormatProvider`). Other replacement fields are left as they are.
- ManGen.OperationDocument.WriteExample: it writes the corrected structure-member head (see Findings). The as-written output is the function `ManSyntax.Example(..., asWritten := true)`. Every member whose output contains a syntax example carries the correction too, and so does not promise the as-written text: ManPages.ExampleSection, ManPages.SyntaxBlock, ManPages.ParameterEntry, ManPages.ParameterEntries, ManPages.Section, ManPages.ParametersLines, ManPages.OperationPage, and ManGen.OperationDocument.DoExample, WriteSyntaxSection, WriteSyntaxBlock, WriteSyntaxLines, WriteSyntaxBody, WriteList, WriteNestedList, WriteListTail, WriteMap, WriteMapTail, WriteMapEntry, WriteNestedEntry, WriteStructure, WriteMembers, WriteNextMember, WriteMember, WriteMemberLines, WriteNestedMember, DoParameter, WriteEntries, WriteNextEntry, WriteEntry, WriteSection, WriteParameterSections, DoParameters and Build.
- DocEvents.RegisterEvents: registers the events in the order the table lists them. The source iterates the `DOC_EVENTS` dictionary (clidocevents.py:139-142), whose order under Python 2 is the hash order, so only one registration per key (DocEvents.RegistersEachOnce) is the source's promise.

**Disagreements with the tests**

- StyleExamples.TocTreeManOutput follows the code, which disagrees with the test. tests/unit/test_style.py:109-116 expects `"\n\n\n* foo\n\n\n* bar\n\n"` for a `man` toctree. style.py:249-264 produces `"\n\n* foo\n\n* bar\n\n"`: `toctree` writes only `start_ul`'s two newlines, and each item ends with `writeln`'s newline and `end_li`'s line break; nothing writes a third newline before an item.

## Findings

| source | as written | input that shows it | evidently intended | confidence | as-written member | corrected member |
|---|---|---|---|---|---|---|
| bcdoc/mangen.py:93-97 | A structure member of a structure writes `"name": {`, and the recursive `_do_example` call writes its own `{`, so each nested structure member leaves one brace unclosed. | A structure whose only member is an empty structure named `inner` (`ManSyntax.Outer()`): the member line is `"inner": {`, and the example's brace depth ends at 1 instead of 0. | The member head is `"name": `, like the map and list branches, so that every example's brackets balance. | not executed | ManSyntax.AsWrittenUnbalanced | ManSyntax.ExampleBalanced |
