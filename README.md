# Tool servers: executor, registries and connection gates

This project models the sequential logic of four tool servers in Dafny and
proves properties of that model:

- **Bash executor** (`bash_mcp.py`). It runs shell commands and keeps a
  history of at most 50 completed runs. It renders a numbered tail of that
  history, looks up tips and selects script templates. It also produces
  optimisation advice from a table of substring checks.
- **SSH and Google Cloud** (`gssh_mcp.py`). Open SSH clients are keyed by
  host. Remote commands run through the registry. A deploy runs three steps
  and stops at the first failure. Compute Engine instance listings are shaped
  into records behind a lazily created manager.
- **Browser automation** (`puppeteer_mcp.py`). One driver, browser and
  context are held together with a map from page ids to pages. Every page
  operation first checks that map. There is also a login workflow of four
  steps and a table scraper.
- **Trading** (`tradingAPI_mcp.py`). An Interactive Brokers manager has a
  `connected` flag that gates every broker call. The records it builds come
  from the broker's data. A NinjaTrader REST client posts an order payload.

No external effect is modelled. Running a process, connecting and executing
over SSH, a Compute listing, a Playwright call and an IB or HTTP call are each
represented by their outcome, which the caller supplies:

- a datatype such as `RunOutcome`, `ExecOutcome` or `ListOutcome`, or
- a `Result` that is `Ok` with a value or `Raised` with the error text, or
- a function from what was sent to that outcome.

State the servers change in place becomes a class with fields and
`modifies` clauses:

- the command history (`BashGuru.Shell`),
- the SSH connection map (`Gssh.SSHManager`),
- the lazily created cloud manager (`Gssh.GCloudTools`),
- the browser manager (`Browser.BrowserManager`),
- the IB flag (`Trading.IBManager`).

Each object Playwright or paramiko would create is a handle carrying a serial
number. That serial stands for the object's identity.

Layout:

| file | module | contents |
|---|---|---|
| `common.dfy` | `Common` | `Option`, `Result`, substring search, join, `str()` of integers, ASCII lower-casing |
| `bash_texts.dfy` | `BashTexts` | the seven tip texts and the monitor template, verbatim |
| `bash_guru.dfy` | `BashGuru` | executor, history, tips, templates, optimisation advice |
| `gssh.dfy` | `Gssh` | SSH registry, deploy, instance records, lazy manager |
| `base64.dfy` | `Base64` | the encoding of section 4 of RFC 4648 and its decoding |
| `browser.dfy` | `Browser` | browser manager, page operations, login, table scraping |
| `trading.dfy` | `Trading` | IB manager, records, NinjaTrader client |

Three behaviours of the code that a reader might expect otherwise:

- `execute_command` pops the oldest record before running and appends a
  record only when the process completes, so a timeout or a failure to start
  records nothing (bash_mcp.py:34-35, 51-57, 68, 71-76).
- The browser manager raises in three places: `start_browser` on an unknown
  engine, `new_page` before a browser is started, and `navigate` on a failed
  page load. `automate_login` lets the navigation error through. The model
  returns `Raised` in exactly those cases.
- The browser and IB-connect tools return plain strings without a success
  indicator, and the model gives those strings.

## Model

| member | source | states |
|---|---|---|
| Common.ContainsIff | bash_mcp.py:372 | Python's `sub in s` holds exactly when `sub` occurs at some position of `s` |
| Common.Take | bash_mcp.py:273 | `s[:n]` is the prefix of `s` of length `min(n, len(s))` |
| Common.Join | bash_mcp.py:427 | `sep.join` of no parts is empty, of one part is that part, and otherwise starts with the first part |
| Common.IntToString | tradingAPI_mcp.py:29 | `str(port)` is non-empty and starts with '-' exactly for negative numbers |
| Common.NatToStringValue | bash_mcp.py:271 | `str(n)` of a natural number is a digit string that denotes `n`, with no leading zero unless it is "0" |
| Common.IntToStringValue | tradingAPI_mcp.py:29 | the digits of `str(i)` after an optional '-' denote the magnitude of `i`, with no leading zero |
| Common.Lower | bash_mcp.py:372 | lower-casing keeps the length and maps each character through `LowerChar` |
| BashGuru.EffectiveDir | bash_mcp.py:65 | `working_dir or os.getcwd()`: the given directory when it is non-empty, else the current one |
| BashGuru.ResultOf | bash_mcp.py:51-76 | the record echoes the command; `success` holds exactly for a completed run with exit code 0; only a completed run carries output, code and directory; a timeout names the timeout; an exception carries its text |
| BashGuru.Evicted | bash_mcp.py:34-35 | at 50 or more records the oldest is dropped, otherwise the history is unchanged |
| BashGuru.NextHistory | bash_mcp.py:34-68 | the bound of 50 is kept; a completed run is appended after the eviction; any other outcome leaves only the eviction, so a full history shrinks by one |
| BashGuru.Shell.constructor | bash_mcp.py:21 | the history starts empty, which keeps the bound and the record invariant |
| BashGuru.Shell.ExecuteCommand | bash_mcp.py:28-76 | returns the record of `ResultOf`, updates the history as `NextHistory` says and keeps every record well formed and the history within 50 |
| BashGuru.Shell.ShellScript | bash_mcp.py:188 | runs `bash <path>` through the executor with the same history effect |
| BashGuru.Recent | bash_mcp.py:266 | for 0 < n < len, exactly the last n records in order; for n >= len, the whole history; for n = 0, the whole history (`[-0:]`); for negative n, the slice Python takes |
| BashGuru.Shell.ShellHistory | bash_mcp.py:266-275 | the loop's text equals the rendering of `Recent(history, last_n)` |
| BashGuru.HistoryLinesAppend | bash_mcp.py:268-273 | the lines of one more record are the old lines followed by that record's lines, numbered on |
| BashGuru.HistoryLinesComplete | bash_mcp.py:269-273 | each record has its numbered ✓/✗ header line, and a failed record with stderr has its "Error:" line |
| BashGuru.HistoryLinesSound | bash_mcp.py:269-273 | every output line is the header or the error line of some record, with that record's number |
| BashGuru.RenderHistory | bash_mcp.py:275 | no records give "No command history yet"; otherwise the text starts with the numbered header of the first record shown |
| BashGuru.EmptyHistoryText | bash_mcp.py:275 | the reply is "No command history yet" exactly when there is nothing to show |
| BashGuru.IndexOf | bash_mcp.py:137 | the position of a key among the tip keys, absent exactly when the key is not one of them |
| BashGuru.TipTopicsDistinct | bash_mcp.py:81-135 | the seven tip keys are distinct |
| BashGuru.GetBashTip | bash_mcp.py:79-137 | a known topic gives its own tip text; an unknown topic gives "Topic '<t>' not found. Available: " followed by the keys joined by ", " |
| BashGuru.TopicListSpelled | bash_mcp.py:137 | that key list is the seven keys in declaration order joined by ", " |
| BashGuru.SelectTemplate | bash_mcp.py:370-374 | the key is "backup" iff the lower-cased purpose contains it; else "monitor" iff it contains that; else "default" |
| BashGuru.FormatTemplate | bash_mcp.py:376 | formatting succeeds only for the monitor template and gives it unchanged; the other two raise |
| BashGuru.CreateScript | bash_mcp.py:369-386 | a script is returned exactly when the monitor template is chosen; with a filename it is preceded by "Script saved to <path>" and a blank line |
| BashGuru.ApplicableByHits | bash_mcp.py:400-419 | the k-th advice line is the advice of the k-th rule whose check holds |
| BashGuru.HitsIncreasing | bash_mcp.py:400-419 | the rules that hold are taken in check order |
| BashGuru.HitsExactly | bash_mcp.py:400-419 | a rule contributes its advice exactly when its substring check holds |
| BashGuru.HitsEmpty | bash_mcp.py:421 | there is no advice exactly when no check holds |
| BashGuru.OptimizeLinesSpec | bash_mcp.py:400-427 | the reply opens with "Optimizations for: <command>" and an empty line, then the advice of the checks that hold, or the four fallback lines exactly when none holds |
| BashGuru.OptimizeCommand | bash_mcp.py:390-427 | the reply opens with "Optimizations for: <command>", a newline and an empty line; the lines it joins are those OptimizeLinesSpec states |
| Gssh.AuthOf | gssh_mcp.py:31-34 | the key file is used exactly when `key_path` is non-empty, otherwise the password |
| Gssh.ExecReplyOf | gssh_mcp.py:43-60 | an unknown host gives an error with no "success" key; a completed run has success exactly for exit status 0; an exception gives success false with its text |
| Gssh.SSHManager.constructor | gssh_mcp.py:22-23 | a new manager has no connections |
| Gssh.SSHManager.Connect | gssh_mcp.py:25-39 | only a successful connect stores a new client under the host, replacing any earlier one and leaving other hosts alone; a failure leaves the map unchanged and reports the error |
| Gssh.SSHManager.ExecuteCommand | gssh_mcp.py:41-60 | the reply is `ExecReplyOf` for whether the host is known; the registry is not changed |
| Gssh.DeployCommands | gssh_mcp.py:169-173 | the deploy has exactly three commands |
| Gssh.DeployToGcloud | gssh_mcp.py:167-182 | 1 to 3 results; result i belongs to command i; all but the last succeeded; fewer than three means the last failed; an unknown host gives one result |
| Gssh.LastSegment | gssh_mcp.py:78 | `s.split('/')[-1]` is the suffix of `s` after its last '/', or all of `s` |
| Gssh.InstanceRowOf | gssh_mcp.py:75-81 | name, status and zone copied, machine type shortened; the internal IP is absent iff there are no interfaces; the external IP is present iff the first interface has an access config |
| Gssh.RowsOf | gssh_mcp.py:74-82 | one record per instance, in listing order |
| Gssh.GCloudManager.constructor | gssh_mcp.py:66-68 | the manager is bound to the project it is built for; whether building its client raises is decided in EnsureManager |
| Gssh.GCloudManager.ListInstances | gssh_mcp.py:70-85 | a failed listing gives a single error record, otherwise the loop builds `RowsOf` the instances |
| Gssh.GCloudTools.constructor | gssh_mcp.py:115 | `gcloud_manager` starts as None |
| Gssh.GCloudTools.EnsureManager | gssh_mcp.py:137-139 | an existing manager is reused; otherwise a manager for this project is created, unless building its Compute client (line 68) raises, in which case the error escapes and no manager is kept |
| Gssh.GCloudTools.GcloudListInstances | gssh_mcp.py:134-142 | instances are listed for the project of the first call whose manager was built, whatever project is passed later; a failed construction raises and leaves no manager |
| Base64.Encode | puppeteer_mcp.py:101 | every character of the encoding is from the standard alphabet or is the padding '=' |
| Base64.RoundTrip | puppeteer_mcp.py:101 | decoding the encoding gives the bytes back |
| Base64.EncodeLength | puppeteer_mcp.py:101 | the encoding has four characters per started group of three bytes |
| Base64.EncodePrefix | puppeteer_mcp.py:101-102 | the first 4k characters are the encoding of the first 3k bytes |
| Browser.EngineOf | puppeteer_mcp.py:26-33 | exactly "chromium", "firefox" and "webkit" name an engine |
| Browser.BrowserManager.constructor | puppeteer_mcp.py:16-20 | a new manager has no driver, browser or context and no pages |
| Browser.BrowserManager.StartBrowser | puppeteer_mcp.py:22-36 | a new driver is started in any case; an unknown type raises "Unsupported browser type" and keeps browser and context; a known one gets a fresh browser of that engine and a fresh context; pages are untouched |
| Browser.BrowserManager.NewPage | puppeteer_mcp.py:38-45 | without a context it raises "Browser not started" and changes nothing; otherwise the id is bound to a fresh page of the context, replacing any earlier page, and no other id changes |
| Browser.BrowserManager.Navigate | puppeteer_mcp.py:47-55 | an existing page is reused; a missing id gets a new page or the "Browser not started" error; afterwards the id is bound; the reply names the url and title, or the page's error is raised |
| Browser.ClickReply | puppeteer_mcp.py:57-67 | "Page not found" exactly for an absent id; otherwise the click or its error |
| Browser.BrowserManager.ClickElement | puppeteer_mcp.py:57-67 | gives `ClickReply` for whether the id is bound, and changes nothing |
| Browser.FillReply | puppeteer_mcp.py:69-79 | "Page not found" exactly for an absent id; otherwise the fill or its error |
| Browser.BrowserManager.FillInput | puppeteer_mcp.py:69-79 | gives `FillReply`, and changes nothing |
| Browser.ExtractReply | puppeteer_mcp.py:81-91 | "Page not found" for an absent id; "No text found" for an empty or missing text; otherwise the text or the error |
| Browser.BrowserManager.ExtractText | puppeteer_mcp.py:81-91 | gives `ExtractReply`, and changes nothing |
| Browser.ScreenshotReply | puppeteer_mcp.py:93-104 | "Page not found" exactly for an absent id; otherwise the first 100 Base64 characters followed by "...", or the error |
| Browser.ShortPreview | puppeteer_mcp.py:101-102 | a screenshot of at most 75 bytes is shown whole, and the preview decodes back to it |
| Browser.LongPreview | puppeteer_mcp.py:101-102 | a longer screenshot shows exactly 100 characters, the encoding of its first 75 bytes, and the preview decodes back to those bytes |
| Browser.BrowserManager.Screenshot | puppeteer_mcp.py:93-104 | gives `ScreenshotReply`, and changes nothing |
| Browser.JavascriptReply | puppeteer_mcp.py:106-116 | "Page not found" for an absent id; otherwise the serialised result or "JavaScript execution failed" with the error |
| Browser.BrowserManager.ExecuteJavascript | puppeteer_mcp.py:106-116 | gives `JavascriptReply` for the outcome of evaluating that script, and changes nothing |
| Browser.WaitReply | puppeteer_mcp.py:118-128 | "Page not found" exactly for an absent id; otherwise whether the element appeared |
| Browser.BrowserManager.WaitForSelector | puppeteer_mcp.py:118-128 | gives `WaitReply`, and changes nothing |
| Browser.AutomateLogin | puppeteer_mcp.py:186-210 | raises exactly when navigation raises, with its error unchanged ("Browser not started" for an unbound id without a context, else the page's error); driver, browser and context stay; a bound id keeps its page, an unbound one gets a fresh page of the context and no other id changes; on success the page is bound and there are exactly four entries, labelled Navigation, Username, Password and Submit in that order, each holding the reply of its step on a page that exists |
| Browser.TableScript | puppeteer_mcp.py:221-230 | the script is the fixed head, then the selector exactly as given, then the fixed tail |
| Browser.ScrapeTableData | puppeteer_mcp.py:212-235 | "Page not found" for an absent id; otherwise the reply of running the table script built from the selector |
| Trading.TagMap | tradingAPI_mcp.py:40 | the summary has a key exactly for each tag that occurs |
| Trading.TagMapLaterWins | tradingAPI_mcp.py:40 | a tag's value is that of its last occurrence |
| Trading.RecordOf | tradingAPI_mcp.py:52-59 | a position record copies every field of the broker position |
| Trading.IBManager.constructor | tradingAPI_mcp.py:20-22 | a new manager is not connected |
| Trading.IBManager.Connect | tradingAPI_mcp.py:24-31 | a successful connect sets the flag and names host and port; a failure keeps the flag and reports the error; the flag is never cleared |
| Trading.IBManager.GetAccountSummary | tradingAPI_mcp.py:33-42 | disconnected gives {"error": "Not connected to IB"}; otherwise the tag map or the broker's error |
| Trading.IBManager.GetPositions | tradingAPI_mcp.py:44-63 | disconnected gives a one-element error list; otherwise one record per broker position in broker order, or a one-element list with the broker's error |
| Trading.IBManager.PlaceOrder | tradingAPI_mcp.py:65-84 | disconnected gives the "Not connected to IB" error; otherwise the broker gets a SMART/USD stock and the order built from the arguments, and the reply has its order id, the arguments and status "submitted", or the error |
| Trading.OrderPayload | tradingAPI_mcp.py:113-118 | the payload has exactly the keys instrument, action, quantity and orderType, each holding its argument |
| Trading.NinjaTraderManager.constructor | tradingAPI_mcp.py:91-92 | the client keeps the base URL it is given |
| Trading.NinjaTraderManager.GetAccountInfo | tradingAPI_mcp.py:94-100 | the body fetched from `<base>/account`, or {"error": ...} |
| Trading.NinjaTraderManager.GetPositions | tradingAPI_mcp.py:102-108 | the body fetched from `<base>/positions`, or a one-element error list |
| Trading.NinjaTraderManager.PlaceOrder | tradingAPI_mcp.py:110-122 | the answer to posting that payload to `<base>/orders`, or {"error": ...} |

## Left out

- Process machinery. Not modelled: `create_subprocess_shell`, `wait_for`, `kill`, the environment and UTF-8 decoding. The run's outcome is a parameter, and the current directory is the parameter `cwd`.
- `timeout=None`, which waits without limit. The timeout is always an integer in the model.
- Two file-system effects. Not modelled: the temporary script file of `shell_script` with its header lines, chmod and unlink, and the file written by `create_script`. `ShellScript` takes the temporary path as a parameter.
- `explain_command`. It needs `shlex.split` and runs `type`, `help` and `man`.
- Common.Lower: ASCII letters only. Python's `str.lower` also folds non-ASCII letters.
- BashGuru.FormatTemplate: gives the message of the exception `.format` raises, but not the exception's type.
- `json.dumps`. The model returns the structured value rather than its JSON text, which affects the shell and SSH replies, the IB replies and `automate_login`'s list. Browser.BrowserManager.ExecuteJavascript takes the serialised text, or the serialisation error, as part of the page's outcome.
- Gssh.DeployToGcloud: each command runs in its own exec channel, so the leading `cd` has no effect on the two gcloud commands. The model runs them independently, as the code does.
- The GCloud start and stop tools only pass a call through, after the same lazy manager creation that `EnsureManager` models.
- Trading.IBManager.PlaceOrder: the order is modelled as the tool's three arguments under the names action, quantity and order type. How ib_insync's `Order` binds the positional arguments `Order(action, quantity, order_type)` (tradingAPI_mcp.py:72) is part of that library and not of this model; if its first positional fields are other ones, the broker receives a different order than the one modelled.
- External libraries. Playwright, paramiko, the Compute client, ib_insync and `requests` are oracles. Launch, `new_context` and `new_page` are taken to succeed.
- `asyncio.sleep(2)` in `automate_login` has no effect beyond timing.
- The table-scraping script is carried as text and its effect is an oracle. The JavaScript itself is not modelled.
- `except` in `scrape_table_data` (puppeteer_mcp.py:234-235). It cannot be reached, because `execute_javascript` catches every error itself.
- Trading.IBManager.GetPositions: attribute errors on the broker's position objects count as the broker raising, through the `Raised` outcome. Which attributes ib_insync's position objects carry is part of that library and not of this model; if they lack the fields read at tradingAPI_mcp.py:55-58, every non-empty listing takes that error path.
- `calculate_position_size`. It is floating-point arithmetic with `int()` truncation.
- The `@server.tool()` wrappers, the servers and the stdio `main()` entry points.
