# Valyu MCP context tool, modelled in Dafny

The server exposes one tool, `valyu_context(query, max_num_results)`, to a
Model Context Protocol host. The tool clamps the requested number of results
into [1, 5]. It asks the Valyu client for context, with search type `"all"`
and a price ceiling of 10. It then returns one string, whatever happens:

- the fixed fetch-failure text when the client call raised or gave `None`;
- `"Error executing valyu_context: "` followed by the message when reading the response raises;
- `"No results found."` for an empty result list;
- otherwise one `Title:` / `Content:` / `URL:` block per result, in order, with blank lines between blocks.

Files:

- `wrappers.dfy`: `Option`, Python's `None` or a present value.
- `strings.dfy`: `Join`, which is Python's `sep.join(parts)`. `Lines` is a
  reference definition of splitting a text at line breaks. It is proved
  inverse to joining with `"\n"` (`LinesOfJoin`, `JoinOfLines`), and it is
  used to read the formatted text back line by line.
- `valyu_mcp.dfy`: the clamp, the request wrapper, the formatter and the tool.

The Valyu client is the parameter `client: ContextRequest -> ClientOutcome`,
a function from the request the server sends to what the call did:
`Raised(message)`, `ReturnedNone` or `Returned(response)`. A response is
either `SearchResponse(results)` or `Unreadable(message)`. The second kind is
a response whose reading inside the tool raises an exception with that message.

`format_valyu_results` builds its list of blocks in a loop and then joins it.
It is modelled twice: as the method `FormatValyuResults`, a loop with
invariants, and as the function `FormatResults`, which specifies it. The
method is proved to return what the function gives. The clamp, the request
wrapper and the tool are straight-line case splits, so they are functions.

An exception raised by the client call itself never reaches the tool's outer
handler. `make_valyu_request` catches it and returns `None`, and the tool
then answers with the fetch-failure text, not the `Error executing …` text.
The model follows the code here. Only a failure after the call (here, while
reading the response) produces the error text.

## Model

| member | source | states |
|---|---|---|
| `ValyuMcp.Clamp` | valyu-mcp.py:71 | the count is always in [1, 5]; it equals the input when the input is already in [1, 5], is 1 below and 5 above |
| `ValyuMcp.ClampIsNearest` | valyu-mcp.py:71 | the clamped count is the value in [1, 5] nearest to the requested one |
| `ValyuMcp.MakeValyuRequest` | valyu-mcp.py:16-35 | the client gets query, search type `"all"`, the given count and price; the wrapper gives `None` exactly when the client raised or returned `None`, otherwise the client's response |
| `ValyuMcp.ContentText` | valyu-mcp.py:54 | the content line shows `content` when present and non-empty, else `description`, else the f-string rendering `"None"` |
| `ValyuMcp.FormatBlock` | valyu-mcp.py:52-55 | every block begins with `"Title: "` |
| `ValyuMcp.BlockIsJoinOfLines` | valyu-mcp.py:53-55 | a block is its title, content and URL lines joined by line breaks |
| `ValyuMcp.BlockIsThreeLines` | valyu-mcp.py:53-55 | for single-line fields, a block reads back as exactly the three lines `Title: t`, `Content: c`, `URL: u` |
| `ValyuMcp.FormatResults` | valyu-mcp.py:37-59 | the output is `"No results found."` exactly when the list is empty; a non-empty list gives a text starting with `"Title: "` |
| `ValyuMcp.FormatValyuResults` | valyu-mcp.py:47-58 | the loop that appends one block per result, then joins them with `"\n\n"`, returns exactly the specified formatting |
| `ValyuMcp.FormatSingle` | valyu-mcp.py:50-58 | one result formats to its block alone, with no separator |
| `ValyuMcp.FormatCons` | valyu-mcp.py:50-58 | with more than one result, the text is the first result's block, `"\n\n"`, then the text of the remaining results |
| `ValyuMcp.FormatAppend` | valyu-mcp.py:50-58 | appending a result appends `"\n\n"` and its block, so blocks keep the order of the results |
| `ValyuMcp.FormatIsJoinOfLines` | valyu-mcp.py:50-58 | the formatted text is the blocks' lines with one empty line between neighbouring blocks, joined by line breaks |
| `ValyuMcp.FormattedLayout` | valyu-mcp.py:50-58 | for n results with single-line fields, the output has 4n − 1 lines; lines 4i..4i+2 are result i's block, and line 4i+3 is empty between blocks (n − 1 separators) |
| `ValyuMcp.TwoResultsExample` | valyu-mcp.py:50-58 | two results, the second with empty content and a description, give their two blocks with a blank line between; the second block shows the description |
| `ValyuMcp.ValyuContext` | valyu-mcp.py:63-84 | the client is asked with search type `"all"`, the clamped count and price 10; the reply is the fetch-failure text exactly when the client raised or returned `None`, starts with the error prefix exactly when the response could not be read (and then carries its message), is `"No results found."` exactly for an empty result list, and is the formatted results otherwise |
| `ValyuMcp.ToolSendsClampedRequest` | valyu-mcp.py:71-73 | the reply depends on the client only through the one request with the caller's query, `"all"`, the clamped count (in [1, 5]) and price 10 |
| `Strings.Join` | valyu-mcp.py:58 | a non-empty join starts with its first part |
| `Strings.JoinConcat` | valyu-mcp.py:58 | joining two non-empty lists equals joining their joins with the separator |

## Left out

- The Valyu client and its `context` call are not modelled beyond the `client` parameter. They are a network call into a library outside this model.
- FastMCP server creation, tool registration and the stdio transport are left out. They are host protocol plumbing.
- Logging is left out. It only writes to the log and never changes a returned value.
- `async`/`await` is left out. The tool makes one awaited call, so the functions are modelled as synchronous.
- Startup is left out: reading `VALYU_API_KEY`, the `exit(1)` paths and the module-level `valyu` handle. This is process I/O and one-time initialisation.
- Default argument values are not modelled as defaults. The tool always passes explicit values to the wrapper. The tool's own default count of 10 clamps to 5 like any other input.
- The truth test `if not data` assumes a returned response object is always truthy, so only `None` is treated as no response. The response class is not part of this model.
- `title` and `url` are plain strings. A missing title or URL, which the f-string would print as `None`, is not modelled.
- Every exception inside the outer `try` after the client call is `Unreadable(message)`. This also covers exceptions the logging call at line 79 could raise. The model cannot create its own exceptions.
- The index from `enumerate(..., 1)` is never used by the source, so it is not modelled.
- `ValyuMcp.FormattedLayout` is stated only for fields without line breaks. Fields that contain line breaks make the line-by-line reading ambiguous. For such fields, `FormatAppend` and `FormatIsJoinOfLines` still give the exact text.
