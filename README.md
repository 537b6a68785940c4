# HttpExample greeting handler in Dafny

This project models `http_example`, the HTTP-triggered function of an Azure
Functions app that answers `GET /hello` and `POST /hello` with a plain-text
greeting. The handler makes three moves:

1. It resolves a name as `params.get("name") or (get_json().get("name") if POST else None)`.
   The query value wins when it is truthy. Only a POST with a falsy query value
   parses the body and reads its `"name"` key.
2. It formats `Hello {name} 👋` when the resolved name is truthy. Otherwise it
   uses the fixed text `Hello from Azure Functions!`.
3. It returns that text with mimetype `text/plain`.

The model is pure: datatypes, functions and lemmas.

- `python_values.dfy` (module `PythonValues`) holds the Python values a JSON
  body can parse to, the exceptions the handler can raise, Python
  truthiness, `dict.get` and `str()`.
- `http_example.dfy` (module `HttpExample`) holds the request, the name
  resolution, the message, the handler, the inverse `ParseGreeting` and the
  lemmas.

A request is its method (GET or POST), the value of query parameter `name`
(absent or a string) and the outcome of parsing the body (a parsed value, or
`Malformed`). The handler returns either `Ok(Response(body, mimetype))` or the
Python exception it raises: `ValueError` from `get_json` on a body that is not
JSON, or `AttributeError` from `.get` on a parsed value that is not a dict.

Two consequences of the code are easy to miss:

- A falsy body `name` (`""`, `0`, `false`, `null`, `[]`, `{}`) gives the
  default message, because line 9 tests truthiness.
- A valid JSON body that is not an object (a list, a number, `null`, ...)
  raises `AttributeError` from line 8's `.get`.

## Model

| member | source | states |
|---|---|---|
| `HttpExample.ResolveName` | HttpExample/__init__.py:8 | a truthy query value is the name whatever the method and body; an exception is raised only when the body is consulted (POST with a falsy query value) |
| `HttpExample.Handle` | HttpExample/__init__.py:8-10 | raises exactly when name resolution raises; every success is `text/plain`; a successful message is the default exactly when it does not parse as a greeting |
| `HttpExample.Greeting` | HttpExample/__init__.py:9 | the f-string: the message is `Hello `, then the rendered name exactly, then ` 👋`; `ParseGreeting` and `GreetingRoundTrip` give the inverse |
| `HttpExample.Message` | HttpExample/__init__.py:9 | the message is the default text exactly when the resolved name is falsy; otherwise `ParseGreeting` recovers the name's `str()` from it |
| `HttpExample.ParseGreeting` | HttpExample/__init__.py:9 | whatever it extracts from a message, re-formatting it as a greeting gives that message back |
| `HttpExample.GreetingRoundTrip` | HttpExample/__init__.py:9 | stripping `Hello ` and ` 👋` from a personalised message gives back the rendered name exactly |
| `HttpExample.DefaultIsNotAGreeting` | HttpExample/__init__.py:9 | the default text does not have the greeting's shape, and no personalised message equals it |
| `HttpExample.QueryNameWins` | HttpExample/__init__.py:8-9 | with a non-empty query name `q`, the result is `Hello q 👋` as `text/plain` for any method and any body, malformed included |
| `HttpExample.GetIgnoresBody` | HttpExample/__init__.py:8-9 | a GET with an absent or empty query name gets the default message whatever the body |
| `HttpExample.PostUsesBodyName` | HttpExample/__init__.py:8-9 | a POST with a falsy query name and a dict body whose `"name"` is truthy greets `str()` of that value |
| `HttpExample.FalsyBodyNameFallsBack` | HttpExample/__init__.py:8-9 | a POST with a falsy query name and a dict body lacking `"name"`, or with a falsy `"name"`, gets the default message |
| `HttpExample.WhenPostRaises` | HttpExample/__init__.py:8 | the handler raises if and only if the body is consulted and is malformed (`ValueError`) or is not a dict (`AttributeError`) |
| `HttpExample.BodyMattersOnlyWhenConsulted` | HttpExample/__init__.py:8 | short-circuit: when the body is not consulted, any other body gives the same outcome; when it is consulted, a malformed body and `{}` give different outcomes |
| `HttpExample.NameRecovered` | HttpExample/__init__.py:8-10 | a resolved name yields a success; the message is the default exactly when the name is falsy, and otherwise `ParseGreeting` recovers the name's `str()` |
| `HttpExample.DocumentedGetScenarios` | HttpExample/__init__.py:8-10 | the documented GET cases: a GET without a query name gets the default whatever the body, `?name=World` gets `Hello World 👋`, `?name=` gets the default |
| `HttpExample.DocumentedPostScenarios` | HttpExample/__init__.py:8-10 | the documented POST cases: `{"name":"Ada"}` gets `Hello Ada 👋`, `{}` gets the default, `?name=Override` beats the body's name, a malformed body raises `ValueError` |
| `PythonValues.Truthy` | HttpExample/__init__.py:8-9 | a value is falsy exactly when it is `None`, `False`, `0`, `""`, `[]` or `{}`; this decides both the `or` on line 8 and the conditional on line 9 |
| `PythonValues.Get` | HttpExample/__init__.py:8 | `.get("name")` on a dict gives the value under the key, or `None` when the key is missing; on any value that is not a dict it raises `AttributeError` |
| `PythonValues.Str` | HttpExample/__init__.py:9 | `str()` of a string is that string; `str()` of any other value is left to the `strOther` parameter |

## Left out

- The function-app object, its anonymous auth level, the function name and the route (lines 3-6). These are host configuration. Line 6 only limits `Method` to GET and POST.
- The azure.functions library (`HttpRequest`, `params`, `get_json`, `HttpResponse`) is not part of this model. The query value and the outcome of parsing the body are inputs. No JSON parser is modelled, and the model does not decide what `get_json` does with an empty POST body.
- Python's `str()` of values that are not strings (`True`, numbers, lists, dicts) is a function parameter, `strOther`. Only its identity on strings is modelled, in `PythonValues.Str`.
- JSON numbers are integers. Floating-point values such as `0.0` are not modelled.
- Other query parameters and duplicate query keys are not modelled: the request carries only the value of `params.get("name")`.
- HTTP transport, status codes, the host turning an exception into a server error, and concurrency belong to the hosting platform.
