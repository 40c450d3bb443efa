/**
  The ISO 4217 table `iso4217Currencies`, row by row in its order, and the
  proof that every row validates and that no two rows share a numeric code
  or an alphabetic code, so that the collection locked to the standard is
  built without error.

  The table is stored by column: `Row(i)` assembles row `i` from one
  function per field, and each column is split into blocks of 20 rows so
  that the facts about a block can be checked on their own.
*/
module Iso4217Table {
  import opened Wrappers
  import opened Currencies
  import opened Iso4217
  import opened CurrencyCollections

  /** The number of rows. */
  const Count: nat := 179

  /** Row `i` of the table, counted from 0. */
  function Row(i: nat): Iso4217Currency
    requires i < Count
  {
    Iso4217Currency(Name(i), AlphabeticCode(i), NumericCode(i), NarrowSymbol(i), Symbol(i), Places(i))
  }

  /** The name of the currency in row `i`. */
  function Name(i: nat): string
    requires i < Count
  {
    match i
    case 0 => "Afghani"
    case 1 => "Euro"
    case 2 => "Lek"
    case 3 => "Algerian Dinar"
    case 4 => "US Dollar"
    case 5 => "Kwanza"
    case 6 => "East Caribbean Dollar"
    case 7 => "Argentine Peso"
    case 8 => "Armenian Dram"
    case 9 => "Aruban Florin"
    case 10 => "Australian Dollar"
    case 11 => "Azerbaijan Manat"
    case 12 => "Bahamian Dollar"
    case 13 => "Bahraini Dinar"
    case 14 => "Taka"
    case 15 => "Barbados Dollar"
    case 16 => "Belarusian Ruble"
    case 17 => "Belize Dollar"
    case 18 => "CFA Franc BCEAO"
    case 19 => "Bermudian Dollar"
    case 20 => "Indian Rupee"
    case 21 => "Ngultrum"
    case 22 => "Boliviano"
    case 23 => "Mvdol"
    case 24 => "Convertible Mark"
    case 25 => "Pula"
    case 26 => "Norwegian Krone"
    case 27 => "Brazilian Real"
    case 28 => "Brunei Dollar"
    case 29 => "Bulgarian Lev"
    case 30 => "Burundi Franc"
    case 31 => "Cabo Verde Escudo"
    case 32 => "Riel"
    case 33 => "CFA Franc BEAC"
    case 34 => "Canadian Dollar"
    case 35 => "Cayman Islands Dollar"
    case 36 => "Chilean Peso"
    case 37 => "Unidad de Fomento"
    case 38 => "Yuan Renminbi"
    case 39 => "Colombian Peso"
    case 40 => "Unidad de Valor Real"
    case 41 => "Comorian Franc "
    case 42 => "Congolese Franc"
    case 43 => "New Zealand Dollar"
    case 44 => "Costa Rican Colon"
    case 45 => "Kuna"
    case 46 => "Cuban Peso"
    case 47 => "Peso Convertible"
    case 48 => "Netherlands Antillean Guilder"
    case 49 => "Czech Koruna"
    case 50 => "Danish Krone"
    case 51 => "Djibouti Franc"
    case 52 => "Dominican Peso"
    case 53 => "Egyptian Pound"
    case 54 => "El Salvador Colon"
    case 55 => "Nakfa"
    case 56 => "Lilangeni"
    case 57 => "Ethiopian Birr"
    case 58 => "Falkland Islands Pound"
    case 59 => "Fiji Dollar"
    case 60 => "CFP Franc"
    case 61 => "Dalasi"
    case 62 => "Lari"
    case 63 => "Ghana Cedi"
    case 64 => "Gibraltar Pound"
    case 65 => "Quetzal"
    case 66 => "Pound Sterling"
    case 67 => "Guinean Franc"
    case 68 => "Guyana Dollar"
    case 69 => "Gourde"
    case 70 => "Lempira"
    case 71 => "Hong Kong Dollar"
    case 72 => "Forint"
    case 73 => "Iceland Krona"
    case 74 => "Rupiah"
    case 75 => "SDR (Special Drawing Right)"
    case 76 => "Iranian Rial"
    case 77 => "Iraqi Dinar"
    case 78 => "New Israeli Sheqel"
    case 79 => "Jamaican Dollar"
    case 80 => "Yen"
    case 81 => "Jordanian Dinar"
    case 82 => "Tenge"
    case 83 => "Kenyan Shilling"
    case 84 => "North Korean Won"
    case 85 => "Won"
    case 86 => "Kuwaiti Dinar"
    case 87 => "Som"
    case 88 => "Lao Kip"
    case 89 => "Lebanese Pound"
    case 90 => "Loti"
    case 91 => "Rand"
    case 92 => "Liberian Dollar"
    case 93 => "Libyan Dinar"
    case 94 => "Swiss Franc"
    case 95 => "Pataca"
    case 96 => "Denar"
    case 97 => "Malagasy Ariary"
    case 98 => "Malawi Kwacha"
    case 99 => "Malaysian Ringgit"
    case 100 => "Rufiyaa"
    case 101 => "Ouguiya"
    case 102 => "Mauritius Rupee"
    case 103 => "ADB Unit of Account"
    case 104 => "Mexican Peso"
    case 105 => "Mexican Unidad de Inversion (UDI)"
    case 106 => "Moldovan Leu"
    case 107 => "Tugrik"
    case 108 => "Moroccan Dirham"
    case 109 => "Mozambique Metical"
    case 110 => "Kyat"
    case 111 => "Namibia Dollar"
    case 112 => "Nepalese Rupee"
    case 113 => "Cordoba Oro"
    case 114 => "Naira"
    case 115 => "Rial Omani"
    case 116 => "Pakistan Rupee"
    case 117 => "Balboa"
    case 118 => "Kina"
    case 119 => "Guarani"
    case 120 => "Sol"
    case 121 => "Philippine Peso"
    case 122 => "Zloty"
    case 123 => "Qatari Rial"
    case 124 => "Romanian Leu"
    case 125 => "Russian Ruble"
    case 126 => "Rwanda Franc"
    case 127 => "Saint Helena Pound"
    case 128 => "Tala"
    case 129 => "Dobra"
    case 130 => "Saudi Riyal"
    case 131 => "Serbian Dinar"
    case 132 => "Seychelles Rupee"
    case 133 => "Leone"
    case 134 => "Singapore Dollar"
    case 135 => "Sucre"
    case 136 => "Solomon Islands Dollar"
    case 137 => "Somali Shilling"
    case 138 => "South Sudanese Pound"
    case 139 => "Sri Lanka Rupee"
    case 140 => "Sudanese Pound"
    case 141 => "Surinam Dollar"
    case 142 => "Swedish Krona"
    case 143 => "WIR Euro"
    case 144 => "WIR Franc"
    case 145 => "Syrian Pound"
    case 146 => "New Taiwan Dollar"
    case 147 => "Somoni"
    case 148 => "Tanzanian Shilling"
    case 149 => "Baht"
    case 150 => "Pa\U{2019}anga"
    case 151 => "Trinidad and Tobago Dollar"
    case 152 => "Tunisian Dinar"
    case 153 => "Turkish Lira"
    case 154 => "Turkmenistan New Manat"
    case 155 => "Uganda Shilling"
    case 156 => "Hryvnia"
    case 157 => "UAE Dirham"
    case 158 => "US Dollar (Next day)"
    case 159 => "Peso Uruguayo"
    case 160 => "Uruguay Peso en Unidades Indexadas (UI)"
    case 161 => "Unidad Previsional"
    case 162 => "Uzbekistan Sum"
    case 163 => "Vatu"
    case 164 => "Bol\U{00ED}var Soberano"
    case 165 => "Dong"
    case 166 => "Yemeni Rial"
    case 167 => "Zambian Kwacha"
    case 168 => "Zimbabwe Dollar"
    case 169 => "Bond Markets Unit European Composite Unit (EURCO)"
    case 170 => "Bond Markets Unit European Monetary Unit (E.M.U.-6)"
    case 171 => "Bond Markets Unit European Unit of Account 9 (E.U.A.-9)"
    case 172 => "Bond Markets Unit European Unit of Account 17 (E.U.A.-17)"
    case 173 => "Codes specifically reserved for testing purposes"
    case 174 => "The codes assigned for transactions where no currency is involved"
    case 175 => "Gold"
    case 176 => "Palladium"
    case 177 => "Platinum"
    case _ => "Silver"
  }

  /** The alphabetic code of row `i`. */
  function AlphabeticCode(i: nat): string
    requires i < Count
  {
    if i < 20 then AlphabeticCodeFrom0(i)
    else if i < 40 then AlphabeticCodeFrom20(i - 20)
    else if i < 60 then AlphabeticCodeFrom40(i - 40)
    else if i < 80 then AlphabeticCodeFrom60(i - 60)
    else if i < 100 then AlphabeticCodeFrom80(i - 80)
    else if i < 120 then AlphabeticCodeFrom100(i - 100)
    else if i < 140 then AlphabeticCodeFrom120(i - 120)
    else if i < 160 then AlphabeticCodeFrom140(i - 140)
    else AlphabeticCodeFrom160(i - 160)
  }

  // Rows 0-19, currency-iso4217.go:118-137, from AFN; argument i is row 0 + i.
  function AlphabeticCodeFrom0(i: nat): string
    requires i < 20
  {
    match i
    case 0 => "AFN"
    case 1 => "EUR"
    case 2 => "ALL"
    case 3 => "DZD"
    case 4 => "USD"
    case 5 => "AOA"
    case 6 => "XCD"
    case 7 => "ARS"
    case 8 => "AMD"
    case 9 => "AWG"
    case 10 => "AUD"
    case 11 => "AZN"
    case 12 => "BSD"
    case 13 => "BHD"
    case 14 => "BDT"
    case 15 => "BBD"
    case 16 => "BYN"
    case 17 => "BZD"
    case 18 => "XOF"
    case _ => "BMD"
  }

  // Rows 20-39, currency-iso4217.go:138-157, from INR; argument i is row 20 + i.
  function AlphabeticCodeFrom20(i: nat): string
    requires i < 20
  {
    match i
    case 0 => "INR"
    case 1 => "BTN"
    case 2 => "BOB"
    case 3 => "BOV"
    case 4 => "BAM"
    case 5 => "BWP"
    case 6 => "NOK"
    case 7 => "BRL"
    case 8 => "BND"
    case 9 => "BGN"
    case 10 => "BIF"
    case 11 => "CVE"
    case 12 => "KHR"
    case 13 => "XAF"
    case 14 => "CAD"
    case 15 => "KYD"
    case 16 => "CLP"
    case 17 => "CLF"
    case 18 => "CNY"
    case _ => "COP"
  }

  // Rows 40-59, currency-iso4217.go:158-177, from COU; argument i is row 40 + i.
  function AlphabeticCodeFrom40(i: nat): string
    requires i < 20
  {
    match i
    case 0 => "COU"
    case 1 => "KMF"
    case 2 => "CDF"
    case 3 => "NZD"
    case 4 => "CRC"
    case 5 => "HRK"
    case 6 => "CUP"
    case 7 => "CUC"
    case 8 => "ANG"
    case 9 => "CZK"
    case 10 => "DKK"
    case 11 => "DJF"
    case 12 => "DOP"
    case 13 => "EGP"
    case 14 => "SVC"
    case 15 => "ERN"
    case 16 => "SZL"
    case 17 => "ETB"
    case 18 => "FKP"
    case _ => "FJD"
  }

  // Rows 60-79, currency-iso4217.go:178-197, from XPF; argument i is row 60 + i.
  function AlphabeticCodeFrom60(i: nat): string
    requires i < 20
  {
    match i
    case 0 => "XPF"
    case 1 => "GMD"
    case 2 => "GEL"
    case 3 => "GHS"
    case 4 => "GIP"
    case 5 => "GTQ"
    case 6 => "GBP"
    case 7 => "GNF"
    case 8 => "GYD"
    case 9 => "HTG"
    case 10 => "HNL"
    case 11 => "HKD"
    case 12 => "HUF"
    case 13 => "ISK"
    case 14 => "IDR"
    case 15 => "XDR"
    case 16 => "IRR"
    case 17 => "IQD"
    case 18 => "ILS"
    case _ => "JMD"
  }

  // Rows 80-99, currency-iso4217.go:198-217, from JPY; argument i is row 80 + i.
  function AlphabeticCodeFrom80(i: nat): string
    requires i < 20
  {
    match i
    case 0 => "JPY"
    case 1 => "JOD"
    case 2 => "KZT"
    case 3 => "KES"
    case 4 => "KPW"
    case 5 => "KRW"
    case 6 => "KWD"
    case 7 => "KGS"
    case 8 => "LAK"
    case 9 => "LBP"
    case 10 => "LSL"
    case 11 => "ZAR"
    case 12 => "LRD"
    case 13 => "LYD"
    case 14 => "CHF"
    case 15 => "MOP"
    case 16 => "MKD"
    case 17 => "MGA"
    case 18 => "MWK"
    case _ => "MYR"
  }

  // Rows 100-119, currency-iso4217.go:218-237, from MVR; argument i is row 100 + i.
  function AlphabeticCodeFrom100(i: nat): string
    requires i < 20
  {
    match i
    case 0 => "MVR"
    case 1 => "MRU"
    case 2 => "MUR"
    case 3 => "XUA"
    case 4 => "MXN"
    case 5 => "MXV"
    case 6 => "MDL"
    case 7 => "MNT"
    case 8 => "MAD"
    case 9 => "MZN"
    case 10 => "MMK"
    case 11 => "NAD"
    case 12 => "NPR"
    case 13 => "NIO"
    case 14 => "NGN"
    case 15 => "OMR"
    case 16 => "PKR"
    case 17 => "PAB"
    case 18 => "PGK"
    case _ => "PYG"
  }

  // Rows 120-139, currency-iso4217.go:238-257, from PEN; argument i is row 120 + i.
  function AlphabeticCodeFrom120(i: nat): string
    requires i < 20
  {
    match i
    case 0 => "PEN"
    case 1 => "PHP"
    case 2 => "PLN"
    case 3 => "QAR"
    case 4 => "RON"
    case 5 => "RUB"
    case 6 => "RWF"
    case 7 => "SHP"
    case 8 => "WST"
    case 9 => "STN"
    case 10 => "SAR"
    case 11 => "RSD"
    case 12 => "SCR"
    case 13 => "SLL"
    case 14 => "SGD"
    case 15 => "XSU"
    case 16 => "SBD"
    case 17 => "SOS"
    case 18 => "SSP"
    case _ => "LKR"
  }

  // Rows 140-159, currency-iso4217.go:258-277, from SDG; argument i is row 140 + i.
  function AlphabeticCodeFrom140(i: nat): string
    requires i < 20
  {
    match i
    case 0 => "SDG"
    case 1 => "SRD"
    case 2 => "SEK"
    case 3 => "CHE"
    case 4 => "CHW"
    case 5 => "SYP"
    case 6 => "TWD"
    case 7 => "TJS"
    case 8 => "TZS"
    case 9 => "THB"
    case 10 => "TOP"
    case 11 => "TTD"
    case 12 => "TND"
    case 13 => "TRY"
    case 14 => "TMT"
    case 15 => "UGX"
    case 16 => "UAH"
    case 17 => "AED"
    case 18 => "USN"
    case _ => "UYU"
  }

  // Rows 160-178, currency-iso4217.go:278-296, from UYI; argument i is row 160 + i.
  function AlphabeticCodeFrom160(i: nat): string
    requires i < 19
  {
    match i
    case 0 => "UYI"
    case 1 => "UYW"
    case 2 => "UZS"
    case 3 => "VUV"
    case 4 => "VES"
    case 5 => "VND"
    case 6 => "YER"
    case 7 => "ZMW"
    case 8 => "ZWL"
    case 9 => "XBA"
    case 10 => "XBB"
    case 11 => "XBC"
    case 12 => "XBD"
    case 13 => "XTS"
    case 14 => "XXX"
    case 15 => "XAU"
    case 16 => "XPD"
    case 17 => "XPT"
    case _ => "XAG"
  }

  /** The numeric code of row `i`. */
  function NumericCode(i: nat): int
    requires i < Count
  {
    if i < 20 then NumericCodeFrom0(i)
    else if i < 40 then NumericCodeFrom20(i - 20)
    else if i < 60 then NumericCodeFrom40(i - 40)
    else if i < 80 then NumericCodeFrom60(i - 60)
    else if i < 100 then NumericCodeFrom80(i - 80)
    else if i < 120 then NumericCodeFrom100(i - 100)
    else if i < 140 then NumericCodeFrom120(i - 120)
    else if i < 160 then NumericCodeFrom140(i - 140)
    else NumericCodeFrom160(i - 160)
  }

  // Rows 0-19, currency-iso4217.go:118-137, from AFN; argument i is row 0 + i.
  function NumericCodeFrom0(i: nat): int
    requires i < 20
  {
    match i
    case 0 => 971
    case 1 => 978
    case 2 => 8
    case 3 => 12
    case 4 => 840
    case 5 => 973
    case 6 => 951
    case 7 => 32
    case 8 => 51
    case 9 => 533
    case 10 => 36
    case 11 => 944
    case 12 => 44
    case 13 => 48
    case 14 => 50
    case 15 => 52
    case 16 => 933
    case 17 => 84
    case 18 => 952
    case _ => 60
  }

  // Rows 20-39, currency-iso4217.go:138-157, from INR; argument i is row 20 + i.
  function NumericCodeFrom20(i: nat): int
    requires i < 20
  {
    match i
    case 0 => 356
    case 1 => 64
    case 2 => 68
    case 3 => 984
    case 4 => 977
    case 5 => 72
    case 6 => 578
    case 7 => 986
    case 8 => 96
    case 9 => 975
    case 10 => 108
    case 11 => 132
    case 12 => 116
    case 13 => 950
    case 14 => 124
    case 15 => 136
    case 16 => 152
    case 17 => 990
    case 18 => 156
    case _ => 170
  }

  // Rows 40-59, currency-iso4217.go:158-177, from COU; argument i is row 40 + i.
  function NumericCodeFrom40(i: nat): int
    requires i < 20
  {
    match i
    case 0 => 970
    case 1 => 174
    case 2 => 976
    case 3 => 554
    case 4 => 188
    case 5 => 191
    case 6 => 192
    case 7 => 931
    case 8 => 532
    case 9 => 203
    case 10 => 208
    case 11 => 262
    case 12 => 214
    case 13 => 818
    case 14 => 222
    case 15 => 232
    case 16 => 748
    case 17 => 230
    case 18 => 238
    case _ => 242
  }

  // Rows 60-79, currency-iso4217.go:178-197, from XPF; argument i is row 60 + i.
  function NumericCodeFrom60(i: nat): int
    requires i < 20
  {
    match i
    case 0 => 953
    case 1 => 270
    case 2 => 981
    case 3 => 936
    case 4 => 292
    case 5 => 320
    case 6 => 826
    case 7 => 324
    case 8 => 328
    case 9 => 332
    case 10 => 340
    case 11 => 344
    case 12 => 348
    case 13 => 352
    case 14 => 360
    case 15 => 960
    case 16 => 364
    case 17 => 368
    case 18 => 376
    case _ => 388
  }

  // Rows 80-99, currency-iso4217.go:198-217, from JPY; argument i is row 80 + i.
  function NumericCodeFrom80(i: nat): int
    requires i < 20
  {
    match i
    case 0 => 392
    case 1 => 400
    case 2 => 398
    case 3 => 404
    case 4 => 408
    case 5 => 410
    case 6 => 414
    case 7 => 417
    case 8 => 418
    case 9 => 422
    case 10 => 426
    case 11 => 710
    case 12 => 430
    case 13 => 434
    case 14 => 756
    case 15 => 446
    case 16 => 807
    case 17 => 969
    case 18 => 454
    case _ => 458
  }

  // Rows 100-119, currency-iso4217.go:218-237, from MVR; argument i is row 100 + i.
  function NumericCodeFrom100(i: nat): int
    requires i < 20
  {
    match i
    case 0 => 462
    case 1 => 929
    case 2 => 480
    case 3 => 965
    case 4 => 484
    case 5 => 979
    case 6 => 498
    case 7 => 496
    case 8 => 504
    case 9 => 943
    case 10 => 104
    case 11 => 516
    case 12 => 524
    case 13 => 558
    case 14 => 566
    case 15 => 512
    case 16 => 586
    case 17 => 590
    case 18 => 598
    case _ => 600
  }

  // Rows 120-139, currency-iso4217.go:238-257, from PEN; argument i is row 120 + i.
  function NumericCodeFrom120(i: nat): int
    requires i < 20
  {
    match i
    case 0 => 604
    case 1 => 608
    case 2 => 985
    case 3 => 634
    case 4 => 946
    case 5 => 643
    case 6 => 646
    case 7 => 654
    case 8 => 882
    case 9 => 930
    case 10 => 682
    case 11 => 941
    case 12 => 690
    case 13 => 694
    case 14 => 702
    case 15 => 994
    case 16 => 90
    case 17 => 706
    case 18 => 728
    case _ => 144
  }

  // Rows 140-159, currency-iso4217.go:258-277, from SDG; argument i is row 140 + i.
  function NumericCodeFrom140(i: nat): int
    requires i < 20
  {
    match i
    case 0 => 938
    case 1 => 968
    case 2 => 752
    case 3 => 947
    case 4 => 948
    case 5 => 760
    case 6 => 901
    case 7 => 972
    case 8 => 834
    case 9 => 764
    case 10 => 776
    case 11 => 780
    case 12 => 788
    case 13 => 949
    case 14 => 934
    case 15 => 800
    case 16 => 980
    case 17 => 784
    case 18 => 997
    case _ => 858
  }

  // Rows 160-178, currency-iso4217.go:278-296, from UYI; argument i is row 160 + i.
  function NumericCodeFrom160(i: nat): int
    requires i < 19
  {
    match i
    case 0 => 940
    case 1 => 927
    case 2 => 860
    case 3 => 548
    case 4 => 928
    case 5 => 704
    case 6 => 886
    case 7 => 967
    case 8 => 932
    case 9 => 955
    case 10 => 956
    case 11 => 957
    case 12 => 958
    case 13 => 963
    case 14 => 999
    case 15 => 959
    case 16 => 964
    case 17 => 962
    case _ => 961
  }

  /** The symbol of row `i`. */
  function Symbol(i: nat): string
    requires i < Count
  {
    if i < 20 then SymbolFrom0(i)
    else if i < 40 then SymbolFrom20(i - 20)
    else if i < 60 then SymbolFrom40(i - 40)
    else if i < 80 then SymbolFrom60(i - 60)
    else if i < 100 then SymbolFrom80(i - 80)
    else if i < 120 then SymbolFrom100(i - 100)
    else if i < 140 then SymbolFrom120(i - 120)
    else if i < 160 then SymbolFrom140(i - 140)
    else SymbolFrom160(i - 160)
  }

  // Rows 0-19, currency-iso4217.go:118-137, from AFN; argument i is row 0 + i.
  function SymbolFrom0(i: nat): string
    requires i < 20
  {
    match i
    case 0 => "\U{060B}"
    case 1 => "\U{20AC}"
    case 2 => "L"
    case 3 => "DA"
    case 4 => "US$"
    case 5 => "Kz"
    case 6 => "EC$"
    case 7 => "$"
    case 8 => "\U{058F}"
    case 9 => "\U{0192}"
    case 10 => "AU$"
    case 11 => "\U{20BC}"
    case 12 => "B$"
    case 13 => "BD"
    case 14 => "\U{09F3}"
    case 15 => "Bds$"
    case 16 => "Br"
    case 17 => "BZ$"
    case 18 => "CFA"
    case _ => "BD$"
  }

  // Rows 20-39, currency-iso4217.go:138-157, from INR; argument i is row 20 + i.
  function SymbolFrom20(i: nat): string
    requires i < 20
  {
    match i
    case 0 => "\U{20B9}"
    case 1 => "Nu."
    case 2 => "Bs."
    case 3 => ""
    case 4 => "KM"
    case 5 => "P"
    case 6 => "kr"
    case 7 => "R$"
    case 8 => "B$"
    case 9 => "\U{043B}\U{0432}."
    case 10 => "FBu"
    case 11 => "Esc"
    case 12 => "\U{17DB}"
    case 13 => "CFA"
    case 14 => "CA$"
    case 15 => "KY$"
    case 16 => "CLP$"
    case 17 => ""
    case 18 => "\U{00A5}"
    case _ => "Col$"
  }

  // Rows 40-59, currency-iso4217.go:158-177, from COU; argument i is row 40 + i.
  function SymbolFrom40(i: nat): string
    requires i < 20
  {
    match i
    case 0 => ""
    case 1 => "CF"
    case 2 => "F"
    case 3 => "NZ$"
    case 4 => "\U{20A1}"
    case 5 => "kn"
    case 6 => "\U{20B1}"
    case 7 => "$"
    case 8 => "NA\U{0192}"
    case 9 => "K\U{010D}"
    case 10 => "Kr"
    case 11 => "Fdj"
    case 12 => "RD$"
    case 13 => "E\U{00A3}"
    case 14 => ""
    case 15 => "Nkf"
    case 16 => "L"
    case 17 => "Br"
    case 18 => "\U{00A3}"
    case _ => "FJ$"
  }

  // Rows 60-79, currency-iso4217.go:178-197, from XPF; argument i is row 60 + i.
  function SymbolFrom60(i: nat): string
    requires i < 20
  {
    match i
    case 0 => "\U{20A3}"
    case 1 => "D"
    case 2 => "\U{20BE}"
    case 3 => "\U{20B5}"
    case 4 => "\U{00A3}"
    case 5 => "Q"
    case 6 => "\U{00A3}"
    case 7 => "FG"
    case 8 => "GY$"
    case 9 => "G"
    case 10 => "L"
    case 11 => "HK$"
    case 12 => "Ft"
    case 13 => "kr"
    case 14 => "Rp"
    case 15 => "SDR"
    case 16 => "\U{FDFC}"
    case 17 => "\U{062F}.\U{0639}"
    case 18 => "\U{20AA}"
    case _ => "J$"
  }

  // Rows 80-99, currency-iso4217.go:198-217, from JPY; argument i is row 80 + i.
  function SymbolFrom80(i: nat): string
    requires i < 20
  {
    match i
    case 0 => "\U{00A5}"
    case 1 => "\U{062F}.\U{0623}"
    case 2 => "\U{20B8}"
    case 3 => "KSh"
    case 4 => "\U{20A9}"
    case 5 => "\U{20A9}"
    case 6 => "KD"
    case 7 => "\U{20C0}"
    case 8 => "\U{20AD}"
    case 9 => "\U{0644}.\U{0644}"
    case 10 => "L"
    case 11 => "R"
    case 12 => "LD$"
    case 13 => "\U{0644}.\U{062F}"
    case 14 => "Fr."
    case 15 => "MOP$"
    case 16 => "\U{0434}\U{0435}\U{043D}"
    case 17 => "Ar"
    case 18 => "MK"
    case _ => "RM"
  }

  // Rows 100-119, currency-iso4217.go:218-237, from MVR; argument i is row 100 + i.
  function SymbolFrom100(i: nat): string
    requires i < 20
  {
    match i
    case 0 => "Rf"
    case 1 => "UM"
    case 2 => "Rs"
    case 3 => ""
    case 4 => "$"
    case 5 => ""
    case 6 => "L"
    case 7 => "\U{20AE}"
    case 8 => "DH"
    case 9 => "MT"
    case 10 => "K"
    case 11 => "N$"
    case 12 => "NRs"
    case 13 => "C$"
    case 14 => "\U{20A6}"
    case 15 => "\U{0631}.\U{0639}."
    case 16 => "Rs."
    case 17 => "B./"
    case 18 => "K"
    case _ => "\U{20B2}"
  }

  // Rows 120-139, currency-iso4217.go:238-257, from PEN; argument i is row 120 + i.
  function SymbolFrom120(i: nat): string
    requires i < 20
  {
    match i
    case 0 => "S/."
    case 1 => "\U{20B1}"
    case 2 => "z\U{0142}"
    case 3 => "QR"
    case 4 => "L"
    case 5 => "R"
    case 6 => "RF"
    case 7 => "\U{00A3}"
    case 8 => "WS$"
    case 9 => "Db"
    case 10 => "SR"
    case 11 => "din."
    case 12 => "SR"
    case 13 => "Le"
    case 14 => "S$"
    case 15 => ""
    case 16 => "SI$"
    case 17 => "Sh."
    case 18 => "SS\U{00A3}"
    case _ => "Rs"
  }

  // Rows 140-159, currency-iso4217.go:258-277, from SDG; argument i is row 140 + i.
  function SymbolFrom140(i: nat): string
    requires i < 20
  {
    match i
    case 0 => "\U{00A3}SD"
    case 1 => "$"
    case 2 => "kr"
    case 3 => ""
    case 4 => ""
    case 5 => "\U{00A3}S"
    case 6 => "NT$"
    case 7 => "SM"
    case 8 => "TSh"
    case 9 => "\U{0E3F}"
    case 10 => "T$"
    case 11 => "TT$"
    case 12 => "DT"
    case 13 => "YTL"
    case 14 => "m"
    case 15 => "USh"
    case 16 => "\U{20B4}"
    case 17 => "\U{062F}.\U{0625}"
    case 18 => "US$"
    case _ => "$U"
  }

  // Rows 160-178, currency-iso4217.go:278-296, from UYI; argument i is row 160 + i.
  function SymbolFrom160(i: nat): string
    requires i < 19
  {
    match i
    case 0 => ""
    case 1 => ""
    case 2 => "\U{0441}\U{0443}\U{043C}"
    case 3 => "VT"
    case 4 => "Bs.S"
    case 5 => "\U{20AB}"
    case 6 => "\U{FDFC}"
    case 7 => "ZK"
    case 8 => ""
    case 9 => ""
    case 10 => ""
    case 11 => ""
    case 12 => ""
    case 13 => ""
    case 14 => ""
    case 15 => ""
    case 16 => ""
    case 17 => ""
    case _ => ""
  }

  /** The narrow symbol of row `i`. */
  function NarrowSymbol(i: nat): string
    requires i < Count
  {
    if i < 20 then NarrowSymbolFrom0(i)
    else if i < 40 then NarrowSymbolFrom20(i - 20)
    else if i < 60 then NarrowSymbolFrom40(i - 40)
    else if i < 80 then NarrowSymbolFrom60(i - 60)
    else if i < 100 then NarrowSymbolFrom80(i - 80)
    else if i < 120 then NarrowSymbolFrom100(i - 100)
    else if i < 140 then NarrowSymbolFrom120(i - 120)
    else if i < 160 then NarrowSymbolFrom140(i - 140)
    else NarrowSymbolFrom160(i - 160)
  }

  // Rows 0-19, currency-iso4217.go:118-137, from AFN; argument i is row 0 + i.
  function NarrowSymbolFrom0(i: nat): string
    requires i < 20
  {
    match i
    case 0 => ""
    case 1 => ""
    case 2 => ""
    case 3 => ""
    case 4 => "$"
    case 5 => ""
    case 6 => "$"
    case 7 => ""
    case 8 => ""
    case 9 => ""
    case 10 => "$"
    case 11 => ""
    case 12 => "$"
    case 13 => ""
    case 14 => ""
    case 15 => "$"
    case 16 => ""
    case 17 => "$"
    case 18 => "Fr"
    case _ => "$"
  }

  // Rows 20-39, currency-iso4217.go:138-157, from INR; argument i is row 20 + i.
  function NarrowSymbolFrom20(i: nat): string
    requires i < 20
  {
    match i
    case 0 => ""
    case 1 => ""
    case 2 => ""
    case 3 => ""
    case 4 => ""
    case 5 => ""
    case 6 => ""
    case 7 => ""
    case 8 => "$"
    case 9 => ""
    case 10 => ""
    case 11 => ""
    case 12 => ""
    case 13 => "Fr"
    case 14 => "$"
    case 15 => ""
    case 16 => "$"
    case 17 => ""
    case 18 => ""
    case _ => "$"
  }

  // Rows 40-59, currency-iso4217.go:158-177, from COU; argument i is row 40 + i.
  function NarrowSymbolFrom40(i: nat): string
    requires i < 20
  {
    match i
    case 0 => ""
    case 1 => "Fr"
    case 2 => ""
    case 3 => "$"
    case 4 => ""
    case 5 => ""
    case 6 => ""
    case 7 => ""
    case 8 => ""
    case 9 => ""
    case 10 => ""
    case 11 => ""
    case 12 => "$"
    case 13 => "\U{00A3}"
    case 14 => ""
    case 15 => ""
    case 16 => ""
    case 17 => ""
    case 18 => ""
    case _ => "$"
  }

  // Rows 60-79, currency-iso4217.go:178-197, from XPF; argument i is row 60 + i.
  function NarrowSymbolFrom60(i: nat): string
    requires i < 20
  {
    match i
    case 0 => ""
    case 1 => ""
    case 2 => ""
    case 3 => ""
    case 4 => ""
    case 5 => ""
    case 6 => ""
    case 7 => ""
    case 8 => ""
    case 9 => ""
    case 10 => ""
    case 11 => ""
    case 12 => ""
    case 13 => ""
    case 14 => ""
    case 15 => ""
    case 16 => ""
    case 17 => ""
    case 18 => ""
    case _ => ""
  }

  // Rows 80-99, currency-iso4217.go:198-217, from JPY; argument i is row 80 + i.
  function NarrowSymbolFrom80(i: nat): string
    requires i < 20
  {
    match i
    case 0 => ""
    case 1 => ""
    case 2 => ""
    case 3 => "Sh"
    case 4 => ""
    case 5 => ""
    case 6 => ""
    case 7 => ""
    case 8 => ""
    case 9 => ""
    case 10 => ""
    case 11 => ""
    case 12 => "$"
    case 13 => ""
    case 14 => ""
    case 15 => ""
    case 16 => ""
    case 17 => ""
    case 18 => ""
    case _ => ""
  }

  // Rows 100-119, currency-iso4217.go:218-237, from MVR; argument i is row 100 + i.
  function NarrowSymbolFrom100(i: nat): string
    requires i < 20
  {
    match i
    case 0 => ""
    case 1 => ""
    case 2 => ""
    case 3 => ""
    case 4 => ""
    case 5 => ""
    case 6 => ""
    case 7 => ""
    case 8 => ""
    case 9 => ""
    case 10 => ""
    case 11 => ""
    case 12 => ""
    case 13 => ""
    case 14 => ""
    case 15 => ""
    case 16 => ""
    case 17 => ""
    case 18 => ""
    case _ => ""
  }

  // Rows 120-139, currency-iso4217.go:238-257, from PEN; argument i is row 120 + i.
  function NarrowSymbolFrom120(i: nat): string
    requires i < 20
  {
    match i
    case 0 => ""
    case 1 => ""
    case 2 => ""
    case 3 => ""
    case 4 => ""
    case 5 => ""
    case 6 => ""
    case 7 => ""
    case 8 => ""
    case 9 => ""
    case 10 => ""
    case 11 => ""
    case 12 => ""
    case 13 => ""
    case 14 => ""
    case 15 => ""
    case 16 => ""
    case 17 => ""
    case 18 => ""
    case _ => ""
  }

  // Rows 140-159, currency-iso4217.go:258-277, from SDG; argument i is row 140 + i.
  function NarrowSymbolFrom140(i: nat): string
    requires i < 20
  {
    match i
    case 0 => ""
    case 1 => ""
    case 2 => ""
    case 3 => ""
    case 4 => ""
    case 5 => ""
    case 6 => "$"
    case 7 => ""
    case 8 => ""
    case 9 => ""
    case 10 => ""
    case 11 => ""
    case 12 => ""
    case 13 => ""
    case 14 => ""
    case 15 => ""
    case 16 => ""
    case 17 => ""
    case 18 => "$"
    case _ => "$"
  }

  // Rows 160-178, currency-iso4217.go:278-296, from UYI; argument i is row 160 + i.
  function NarrowSymbolFrom160(i: nat): string
    requires i < 19
  {
    match i
    case 0 => ""
    case 1 => ""
    case 2 => ""
    case 3 => ""
    case 4 => ""
    case 5 => ""
    case 6 => ""
    case 7 => ""
    case 8 => ""
    case 9 => ""
    case 10 => ""
    case 11 => ""
    case 12 => ""
    case 13 => ""
    case 14 => ""
    case 15 => ""
    case 16 => ""
    case 17 => ""
    case _ => ""
  }

  /** The decimal places of row `i`. */
  function Places(i: nat): int
    requires i < Count
  {
    if i < 20 then PlacesFrom0(i)
    else if i < 40 then PlacesFrom20(i - 20)
    else if i < 60 then PlacesFrom40(i - 40)
    else if i < 80 then PlacesFrom60(i - 60)
    else if i < 100 then PlacesFrom80(i - 80)
    else if i < 120 then PlacesFrom100(i - 100)
    else if i < 140 then PlacesFrom120(i - 120)
    else if i < 160 then PlacesFrom140(i - 140)
    else PlacesFrom160(i - 160)
  }

  // Rows 0-19, currency-iso4217.go:118-137, from AFN; argument i is row 0 + i.
  function PlacesFrom0(i: nat): int
    requires i < 20
  {
    match i
    case 0 => 2
    case 1 => 2
    case 2 => 2
    case 3 => 2
    case 4 => 2
    case 5 => 2
    case 6 => 2
    case 7 => 2
    case 8 => 2
    case 9 => 2
    case 10 => 2
    case 11 => 2
    case 12 => 2
    case 13 => 3
    case 14 => 2
    case 15 => 2
    case 16 => 2
    case 17 => 2
    case 18 => 0
    case _ => 2
  }

  // Rows 20-39, currency-iso4217.go:138-157, from INR; argument i is row 20 + i.
  function PlacesFrom20(i: nat): int
    requires i < 20
  {
    match i
    case 0 => 2
    case 1 => 2
    case 2 => 2
    case 3 => 2
    case 4 => 2
    case 5 => 2
    case 6 => 2
    case 7 => 2
    case 8 => 2
    case 9 => 2
    case 10 => 0
    case 11 => 2
    case 12 => 2
    case 13 => 0
    case 14 => 2
    case 15 => 2
    case 16 => 0
    case 17 => 4
    case 18 => 2
    case _ => 2
  }

  // Rows 40-59, currency-iso4217.go:158-177, from COU; argument i is row 40 + i.
  function PlacesFrom40(i: nat): int
    requires i < 20
  {
    match i
    case 0 => 2
    case 1 => 0
    case 2 => 2
    case 3 => 2
    case 4 => 2
    case 5 => 2
    case 6 => 2
    case 7 => 2
    case 8 => 2
    case 9 => 2
    case 10 => 2
    case 11 => 0
    case 12 => 2
    case 13 => 2
    case 14 => 2
    case 15 => 2
    case 16 => 2
    case 17 => 2
    case 18 => 2
    case _ => 2
  }

  // Rows 60-79, currency-iso4217.go:178-197, from XPF; argument i is row 60 + i.
  function PlacesFrom60(i: nat): int
    requires i < 20
  {
    match i
    case 0 => 0
    case 1 => 2
    case 2 => 2
    case 3 => 2
    case 4 => 2
    case 5 => 2
    case 6 => 2
    case 7 => 0
    case 8 => 2
    case 9 => 2
    case 10 => 2
    case 11 => 2
    case 12 => 2
    case 13 => 0
    case 14 => 2
    case 15 => -1
    case 16 => 2
    case 17 => 3
    case 18 => 2
    case _ => 2
  }

  // Rows 80-99, currency-iso4217.go:198-217, from JPY; argument i is row 80 + i.
  function PlacesFrom80(i: nat): int
    requires i < 20
  {
    match i
    case 0 => 0
    case 1 => 3
    case 2 => 2
    case 3 => 2
    case 4 => 2
    case 5 => 0
    case 6 => 3
    case 7 => 2
    case 8 => 2
    case 9 => 2
    case 10 => 2
    case 11 => 2
    case 12 => 2
    case 13 => 3
    case 14 => 2
    case 15 => 2
    case 16 => 2
    case 17 => 2
    case 18 => 2
    case _ => 2
  }

  // Rows 100-119, currency-iso4217.go:218-237, from MVR; argument i is row 100 + i.
  function PlacesFrom100(i: nat): int
    requires i < 20
  {
    match i
    case 0 => 2
    case 1 => 2
    case 2 => 2
    case 3 => -1
    case 4 => 2
    case 5 => 2
    case 6 => 2
    case 7 => 2
    case 8 => 2
    case 9 => 2
    case 10 => 2
    case 11 => 2
    case 12 => 2
    case 13 => 2
    case 14 => 2
    case 15 => 3
    case 16 => 2
    case 17 => 2
    case 18 => 2
    case _ => 0
  }

  // Rows 120-139, currency-iso4217.go:238-257, from PEN; argument i is row 120 + i.
  function PlacesFrom120(i: nat): int
    requires i < 20
  {
    match i
    case 0 => 2
    case 1 => 2
    case 2 => 2
    case 3 => 2
    case 4 => 2
    case 5 => 2
    case 6 => 0
    case 7 => 2
    case 8 => 2
    case 9 => 2
    case 10 => 2
    case 11 => 2
    case 12 => 2
    case 13 => 2
    case 14 => 2
    case 15 => -1
    case 16 => 2
    case 17 => 2
    case 18 => 2
    case _ => 2
  }

  // Rows 140-159, currency-iso4217.go:258-277, from SDG; argument i is row 140 + i.
  function PlacesFrom140(i: nat): int
    requires i < 20
  {
    match i
    case 0 => 2
    case 1 => 2
    case 2 => 2
    case 3 => 2
    case 4 => 2
    case 5 => 2
    case 6 => 2
    case 7 => 2
    case 8 => 2
    case 9 => 2
    case 10 => 2
    case 11 => 2
    case 12 => 3
    case 13 => 2
    case 14 => 2
    case 15 => 0
    case 16 => 2
    case 17 => 2
    case 18 => 2
    case _ => 2
  }

  // Rows 160-178, currency-iso4217.go:278-296, from UYI; argument i is row 160 + i.
  function PlacesFrom160(i: nat): int
    requires i < 19
  {
    match i
    case 0 => 0
    case 1 => 4
    case 2 => 2
    case 3 => 0
    case 4 => 2
    case 5 => 0
    case 6 => 2
    case 7 => 2
    case 8 => 2
    case 9 => -1
    case 10 => -1
    case 11 => -1
    case 12 => -1
    case 13 => -1
    case 14 => -1
    case 15 => -1
    case 16 => -1
    case 17 => -1
    case _ => -1
  }

  /** The key of a three-character code, ordering codes as numbers. */
  function CodeKey(s: string): int
    requires |s| == 3
  {
    (s[0] as int) * 0x10000 + (s[1] as int) * 0x100 + (s[2] as int)
  }

  /** The row holding numeric code `n`, or -1: the table indexed by numeric code. */
  function NumericRank(n: int): int
  {
    if n < 598 then
      if n < 332 then
        if n < 144 then
          if n < 68 then
            if n < 48 then
              if n < 32 then
                if n < 12 then
                  if n == 8 then 2 else -1
                else
                  if n == 12 then 3 else -1
              else
                if n < 36 then
                  if n == 32 then 7 else -1
                else
                  if n < 44 then
                    if n == 36 then 10 else -1
                  else
                    if n == 44 then 12 else -1
            else
              if n < 52 then
                if n < 50 then
                  if n == 48 then 13 else -1
                else
                  if n < 51 then
                    if n == 50 then 14 else -1
                  else
                    if n == 51 then 8 else -1
              else
                if n < 60 then
                  if n == 52 then 15 else -1
                else
                  if n < 64 then
                    if n == 60 then 19 else -1
                  else
                    if n == 64 then 21 else -1
          else
            if n < 104 then
              if n < 84 then
                if n < 72 then
                  if n == 68 then 22 else -1
                else
                  if n == 72 then 25 else -1
              else
                if n < 90 then
                  if n == 84 then 17 else -1
                else
                  if n < 96 then
                    if n == 90 then 136 else -1
                  else
                    if n == 96 then 28 else -1
            else
              if n < 124 then
                if n < 108 then
                  if n == 104 then 110 else -1
                else
                  if n < 116 then
                    if n == 108 then 30 else -1
                  else
                    if n == 116 then 32 else -1
              else
                if n < 132 then
                  if n == 124 then 34 else -1
                else
                  if n < 136 then
                    if n == 132 then 31 else -1
                  else
                    if n == 136 then 35 else -1
        else
          if n < 222 then
            if n < 188 then
              if n < 156 then
                if n < 152 then
                  if n == 144 then 139 else -1
                else
                  if n == 152 then 36 else -1
              else
                if n < 170 then
                  if n == 156 then 38 else -1
                else
                  if n < 174 then
                    if n == 170 then 39 else -1
                  else
                    if n == 174 then 41 else -1
            else
              if n < 203 then
                if n < 191 then
                  if n == 188 then 44 else -1
                else
                  if n < 192 then
                    if n == 191 then 45 else -1
                  else
                    if n == 192 then 46 else -1
              else
                if n < 208 then
                  if n == 203 then 49 else -1
                else
                  if n < 214 then
                    if n == 208 then 50 else -1
                  else
                    if n == 214 then 52 else -1
          else
            if n < 262 then
              if n < 232 then
                if n < 230 then
                  if n == 222 then 54 else -1
                else
                  if n == 230 then 57 else -1
              else
                if n < 238 then
                  if n == 232 then 55 else -1
                else
                  if n < 242 then
                    if n == 238 then 58 else -1
                  else
                    if n == 242 then 59 else -1
            else
              if n < 320 then
                if n < 270 then
                  if n == 262 then 51 else -1
                else
                  if n < 292 then
                    if n == 270 then 61 else -1
                  else
                    if n == 292 then 64 else -1
              else
                if n < 324 then
                  if n == 320 then 65 else -1
                else
                  if n < 328 then
                    if n == 324 then 67 else -1
                  else
                    if n == 328 then 68 else -1
      else
        if n < 430 then
          if n < 392 then
            if n < 356 then
              if n < 344 then
                if n < 340 then
                  if n == 332 then 69 else -1
                else
                  if n == 340 then 70 else -1
              else
                if n < 348 then
                  if n == 344 then 71 else -1
                else
                  if n < 352 then
                    if n == 348 then 72 else -1
                  else
                    if n == 352 then 73 else -1
            else
              if n < 368 then
                if n < 360 then
                  if n == 356 then 20 else -1
                else
                  if n < 364 then
                    if n == 360 then 74 else -1
                  else
                    if n == 364 then 76 else -1
              else
                if n < 376 then
                  if n == 368 then 77 else -1
                else
                  if n < 388 then
                    if n == 376 then 78 else -1
                  else
                    if n == 388 then 79 else -1
          else
            if n < 410 then
              if n < 400 then
                if n < 398 then
                  if n == 392 then 80 else -1
                else
                  if n == 398 then 82 else -1
              else
                if n < 404 then
                  if n == 400 then 81 else -1
                else
                  if n < 408 then
                    if n == 404 then 83 else -1
                  else
                    if n == 408 then 84 else -1
            else
              if n < 418 then
                if n < 414 then
                  if n == 410 then 85 else -1
                else
                  if n < 417 then
                    if n == 414 then 86 else -1
                  else
                    if n == 417 then 87 else -1
              else
                if n < 422 then
                  if n == 418 then 88 else -1
                else
                  if n < 426 then
                    if n == 422 then 89 else -1
                  else
                    if n == 426 then 90 else -1
        else
          if n < 512 then
            if n < 462 then
              if n < 446 then
                if n < 434 then
                  if n == 430 then 92 else -1
                else
                  if n == 434 then 93 else -1
              else
                if n < 454 then
                  if n == 446 then 95 else -1
                else
                  if n < 458 then
                    if n == 454 then 98 else -1
                  else
                    if n == 458 then 99 else -1
            else
              if n < 496 then
                if n < 480 then
                  if n == 462 then 100 else -1
                else
                  if n < 484 then
                    if n == 480 then 102 else -1
                  else
                    if n == 484 then 104 else -1
              else
                if n < 498 then
                  if n == 496 then 107 else -1
                else
                  if n < 504 then
                    if n == 498 then 106 else -1
                  else
                    if n == 504 then 108 else -1
          else
            if n < 554 then
              if n < 532 then
                if n < 516 then
                  if n == 512 then 115 else -1
                else
                  if n < 524 then
                    if n == 516 then 111 else -1
                  else
                    if n == 524 then 112 else -1
              else
                if n < 533 then
                  if n == 532 then 48 else -1
                else
                  if n < 548 then
                    if n == 533 then 9 else -1
                  else
                    if n == 548 then 163 else -1
            else
              if n < 578 then
                if n < 558 then
                  if n == 554 then 43 else -1
                else
                  if n < 566 then
                    if n == 558 then 113 else -1
                  else
                    if n == 566 then 114 else -1
              else
                if n < 586 then
                  if n == 578 then 26 else -1
                else
                  if n < 590 then
                    if n == 586 then 116 else -1
                  else
                    if n == 590 then 117 else -1
    else
      if n < 938 then
        if n < 780 then
          if n < 702 then
            if n < 643 then
              if n < 604 then
                if n < 600 then
                  if n == 598 then 118 else -1
                else
                  if n == 600 then 119 else -1
              else
                if n < 608 then
                  if n == 604 then 120 else -1
                else
                  if n < 634 then
                    if n == 608 then 121 else -1
                  else
                    if n == 634 then 123 else -1
            else
              if n < 682 then
                if n < 646 then
                  if n == 643 then 125 else -1
                else
                  if n < 654 then
                    if n == 646 then 126 else -1
                  else
                    if n == 654 then 127 else -1
              else
                if n < 690 then
                  if n == 682 then 130 else -1
                else
                  if n < 694 then
                    if n == 690 then 132 else -1
                  else
                    if n == 694 then 133 else -1
          else
            if n < 748 then
              if n < 706 then
                if n < 704 then
                  if n == 702 then 134 else -1
                else
                  if n == 704 then 165 else -1
              else
                if n < 710 then
                  if n == 706 then 137 else -1
                else
                  if n < 728 then
                    if n == 710 then 91 else -1
                  else
                    if n == 728 then 138 else -1
            else
              if n < 760 then
                if n < 752 then
                  if n == 748 then 56 else -1
                else
                  if n < 756 then
                    if n == 752 then 142 else -1
                  else
                    if n == 756 then 94 else -1
              else
                if n < 764 then
                  if n == 760 then 145 else -1
                else
                  if n < 776 then
                    if n == 764 then 149 else -1
                  else
                    if n == 776 then 150 else -1
        else
          if n < 882 then
            if n < 818 then
              if n < 788 then
                if n < 784 then
                  if n == 780 then 151 else -1
                else
                  if n == 784 then 157 else -1
              else
                if n < 800 then
                  if n == 788 then 152 else -1
                else
                  if n < 807 then
                    if n == 800 then 155 else -1
                  else
                    if n == 807 then 96 else -1
            else
              if n < 840 then
                if n < 826 then
                  if n == 818 then 53 else -1
                else
                  if n < 834 then
                    if n == 826 then 66 else -1
                  else
                    if n == 834 then 148 else -1
              else
                if n < 858 then
                  if n == 840 then 4 else -1
                else
                  if n < 860 then
                    if n == 858 then 159 else -1
                  else
                    if n == 860 then 162 else -1
          else
            if n < 930 then
              if n < 927 then
                if n < 886 then
                  if n == 882 then 128 else -1
                else
                  if n < 901 then
                    if n == 886 then 166 else -1
                  else
                    if n == 901 then 146 else -1
              else
                if n < 928 then
                  if n == 927 then 161 else -1
                else
                  if n < 929 then
                    if n == 928 then 164 else -1
                  else
                    if n == 929 then 101 else -1
            else
              if n < 933 then
                if n < 931 then
                  if n == 930 then 129 else -1
                else
                  if n < 932 then
                    if n == 931 then 47 else -1
                  else
                    if n == 932 then 168 else -1
              else
                if n < 934 then
                  if n == 933 then 16 else -1
                else
                  if n < 936 then
                    if n == 934 then 154 else -1
                  else
                    if n == 936 then 63 else -1
      else
        if n < 964 then
          if n < 952 then
            if n < 946 then
              if n < 941 then
                if n < 940 then
                  if n == 938 then 140 else -1
                else
                  if n == 940 then 160 else -1
              else
                if n < 943 then
                  if n == 941 then 131 else -1
                else
                  if n < 944 then
                    if n == 943 then 109 else -1
                  else
                    if n == 944 then 11 else -1
            else
              if n < 949 then
                if n < 947 then
                  if n == 946 then 124 else -1
                else
                  if n < 948 then
                    if n == 947 then 143 else -1
                  else
                    if n == 948 then 144 else -1
              else
                if n < 950 then
                  if n == 949 then 153 else -1
                else
                  if n < 951 then
                    if n == 950 then 33 else -1
                  else
                    if n == 951 then 6 else -1
          else
            if n < 958 then
              if n < 955 then
                if n < 953 then
                  if n == 952 then 18 else -1
                else
                  if n == 953 then 60 else -1
              else
                if n < 956 then
                  if n == 955 then 169 else -1
                else
                  if n < 957 then
                    if n == 956 then 170 else -1
                  else
                    if n == 957 then 171 else -1
            else
              if n < 961 then
                if n < 959 then
                  if n == 958 then 172 else -1
                else
                  if n < 960 then
                    if n == 959 then 175 else -1
                  else
                    if n == 960 then 75 else -1
              else
                if n < 962 then
                  if n == 961 then 178 else -1
                else
                  if n < 963 then
                    if n == 962 then 177 else -1
                  else
                    if n == 963 then 173 else -1
        else
          if n < 977 then
            if n < 970 then
              if n < 967 then
                if n < 965 then
                  if n == 964 then 176 else -1
                else
                  if n == 965 then 103 else -1
              else
                if n < 968 then
                  if n == 967 then 167 else -1
                else
                  if n < 969 then
                    if n == 968 then 141 else -1
                  else
                    if n == 969 then 97 else -1
            else
              if n < 973 then
                if n < 971 then
                  if n == 970 then 40 else -1
                else
                  if n < 972 then
                    if n == 971 then 0 else -1
                  else
                    if n == 972 then 147 else -1
              else
                if n < 975 then
                  if n == 973 then 5 else -1
                else
                  if n < 976 then
                    if n == 975 then 29 else -1
                  else
                    if n == 976 then 42 else -1
          else
            if n < 985 then
              if n < 980 then
                if n < 978 then
                  if n == 977 then 24 else -1
                else
                  if n < 979 then
                    if n == 978 then 1 else -1
                  else
                    if n == 979 then 105 else -1
              else
                if n < 981 then
                  if n == 980 then 156 else -1
                else
                  if n < 984 then
                    if n == 981 then 62 else -1
                  else
                    if n == 984 then 23 else -1
            else
              if n < 994 then
                if n < 986 then
                  if n == 985 then 122 else -1
                else
                  if n < 990 then
                    if n == 986 then 27 else -1
                  else
                    if n == 990 then 37 else -1
              else
                if n < 997 then
                  if n == 994 then 135 else -1
                else
                  if n < 999 then
                    if n == 997 then 158 else -1
                  else
                    if n == 999 then 174 else -1
  }

  /** The row holding alphabetic code `s`, or -1: the table indexed by code. */
  function CodeRank(s: string): int
  {
    if |s| != 3 then -1 else KeyRank(CodeKey(s))
  }

  /** The row whose code has key `k`, or -1. */
  function KeyRank(k: int): int
  {
    if k < 5063756 then
      if k < 4479556 then
        if k < 4346958 then
          if k < 4342340 then
            if k < 4280129 then
              if k < 4279372 then
                if k < 4277838 then
                  if k == 4277572 then 157 else -1
                else
                  if k == 4277838 then 0 else -1
              else
                if k < 4279620 then
                  if k == 4279372 then 2 else -1
                else
                  if k < 4279879 then
                    if k == 4279620 then 8 else -1
                  else
                    if k == 4279879 then 48 else -1
            else
              if k < 4282183 then
                if k < 4280915 then
                  if k == 4280129 then 5 else -1
                else
                  if k < 4281668 then
                    if k == 4280915 then 7 else -1
                  else
                    if k == 4281668 then 10 else -1
              else
                if k < 4282958 then
                  if k == 4282183 then 9 else -1
                else
                  if k < 4342093 then
                    if k == 4282958 then 11 else -1
                  else
                    if k == 4342093 then 24 else -1
          else
            if k < 4345156 then
              if k < 4343630 then
                if k < 4342868 then
                  if k == 4342340 then 15 else -1
                else
                  if k == 4342868 then 14 else -1
              else
                if k < 4343876 then
                  if k == 4343630 then 29 else -1
                else
                  if k < 4344134 then
                    if k == 4343876 then 13 else -1
                  else
                    if k == 4344134 then 30 else -1
            else
              if k < 4345686 then
                if k < 4345412 then
                  if k == 4345156 then 19 else -1
                else
                  if k < 4345666 then
                    if k == 4345412 then 28 else -1
                  else
                    if k == 4345666 then 22 else -1
              else
                if k < 4346444 then
                  if k == 4345686 then 23 else -1
                else
                  if k < 4346692 then
                    if k == 4346444 then 27 else -1
                  else
                    if k == 4346692 then 12 else -1
        else
          if k < 4410969 then
            if k < 4408390 then
              if k < 4348238 then
                if k < 4347728 then
                  if k == 4346958 then 21 else -1
                else
                  if k == 4347728 then 25 else -1
              else
                if k < 4348484 then
                  if k == 4348238 then 16 else -1
                else
                  if k < 4407620 then
                    if k == 4348484 then 17 else -1
                  else
                    if k == 4407620 then 34 else -1
            else
              if k < 4409431 then
                if k < 4409413 then
                  if k == 4408390 then 42 else -1
                else
                  if k < 4409414 then
                    if k == 4409413 then 143 else -1
                  else
                    if k == 4409414 then 94 else -1
              else
                if k < 4410438 then
                  if k == 4409431 then 144 else -1
                else
                  if k < 4410448 then
                    if k == 4410438 then 37 else -1
                  else
                    if k == 4410448 then 36 else -1
          else
            if k < 4412752 then
              if k < 4411221 then
                if k < 4411216 then
                  if k == 4410969 then 38 else -1
                else
                  if k == 4411216 then 39 else -1
              else
                if k < 4411971 then
                  if k == 4411221 then 40 else -1
                else
                  if k < 4412739 then
                    if k == 4411971 then 44 else -1
                  else
                    if k == 4412739 then 47 else -1
            else
              if k < 4475462 then
                if k < 4412997 then
                  if k == 4412752 then 46 else -1
                else
                  if k < 4414027 then
                    if k == 4412997 then 31 else -1
                  else
                    if k == 4414027 then 49 else -1
              else
                if k < 4475723 then
                  if k == 4475462 then 51 else -1
                else
                  if k < 4476752 then
                    if k == 4475723 then 50 else -1
                  else
                    if k == 4476752 then 52 else -1
      else
        if k < 4804178 then
          if k < 4672836 then
            if k < 4606532 then
              if k < 4543054 then
                if k < 4540240 then
                  if k == 4479556 then 3 else -1
                else
                  if k == 4540240 then 53 else -1
              else
                if k < 4543554 then
                  if k == 4543054 then 55 else -1
                else
                  if k < 4543826 then
                    if k == 4543554 then 57 else -1
                  else
                    if k == 4543826 then 1 else -1
            else
              if k < 4670796 then
                if k < 4606800 then
                  if k == 4606532 then 59 else -1
                else
                  if k < 4670032 then
                    if k == 4606800 then 58 else -1
                  else
                    if k == 4670032 then 66 else -1
              else
                if k < 4671571 then
                  if k == 4670796 then 62 else -1
                else
                  if k < 4671824 then
                    if k == 4671571 then 63 else -1
                  else
                    if k == 4671824 then 64 else -1
          else
            if k < 4738636 then
              if k < 4674641 then
                if k < 4673094 then
                  if k == 4672836 then 61 else -1
                else
                  if k == 4673094 then 67 else -1
              else
                if k < 4675908 then
                  if k == 4674641 then 65 else -1
                else
                  if k < 4737860 then
                    if k == 4675908 then 68 else -1
                  else
                    if k == 4737860 then 71 else -1
            else
              if k < 4740422 then
                if k < 4739659 then
                  if k == 4738636 then 70 else -1
                else
                  if k < 4740167 then
                    if k == 4739659 then 45 else -1
                  else
                    if k == 4740167 then 69 else -1
              else
                if k < 4801618 then
                  if k == 4740422 then 72 else -1
                else
                  if k < 4803667 then
                    if k == 4801618 then 74 else -1
                  else
                    if k == 4803667 then 78 else -1
        else
          if k < 4935767 then
            if k < 4869956 then
              if k < 4805202 then
                if k < 4804932 then
                  if k == 4804178 then 20 else -1
                else
                  if k == 4804932 then 77 else -1
              else
                if k < 4805451 then
                  if k == 4805202 then 76 else -1
                else
                  if k < 4869444 then
                    if k == 4805451 then 73 else -1
                  else
                    if k == 4869444 then 79 else -1
            else
              if k < 4933459 then
                if k < 4870233 then
                  if k == 4869956 then 81 else -1
                else
                  if k < 4932947 then
                    if k == 4870233 then 80 else -1
                  else
                    if k == 4932947 then 83 else -1
              else
                if k < 4933714 then
                  if k == 4933459 then 87 else -1
                else
                  if k < 4934982 then
                    if k == 4933714 then 32 else -1
                  else
                    if k == 4934982 then 41 else -1
          else
            if k < 4997712 then
              if k < 4938052 then
                if k < 4936279 then
                  if k == 4935767 then 84 else -1
                else
                  if k < 4937540 then
                    if k == 4936279 then 85 else -1
                  else
                    if k == 4937540 then 86 else -1
              else
                if k < 4938324 then
                  if k == 4938052 then 35 else -1
                else
                  if k < 4997451 then
                    if k == 4938324 then 82 else -1
                  else
                    if k == 4997451 then 88 else -1
            else
              if k < 5002060 then
                if k < 5000018 then
                  if k == 4997712 then 89 else -1
                else
                  if k < 5001796 then
                    if k == 5000018 then 139 else -1
                  else
                    if k == 5001796 then 92 else -1
              else
                if k < 5003588 then
                  if k == 5002060 then 90 else -1
                else
                  if k < 5062980 then
                    if k == 5003588 then 93 else -1
                  else
                    if k == 5062980 then 108 else -1
    else
      if k < 5461571 then
        if k < 5260622 then
          if k < 5068886 then
            if k < 5066576 then
              if k < 5065540 then
                if k < 5064513 then
                  if k == 5063756 then 106 else -1
                else
                  if k == 5064513 then 97 else -1
              else
                if k < 5066059 then
                  if k == 5065540 then 96 else -1
                else
                  if k < 5066324 then
                    if k == 5066059 then 110 else -1
                  else
                    if k == 5066324 then 107 else -1
            else
              if k < 5068370 then
                if k < 5067349 then
                  if k == 5066576 then 95 else -1
                else
                  if k < 5068114 then
                    if k == 5067349 then 101 else -1
                  else
                    if k == 5068114 then 102 else -1
              else
                if k < 5068619 then
                  if k == 5068370 then 100 else -1
                else
                  if k < 5068878 then
                    if k == 5068619 then 98 else -1
                  else
                    if k == 5068878 then 104 else -1
          else
            if k < 5130575 then
              if k < 5069390 then
                if k < 5069138 then
                  if k == 5068886 then 105 else -1
                else
                  if k == 5069138 then 99 else -1
              else
                if k < 5128516 then
                  if k == 5069390 then 109 else -1
                else
                  if k < 5130062 then
                    if k == 5128516 then 111 else -1
                  else
                    if k == 5130062 then 114 else -1
            else
              if k < 5134916 then
                if k < 5132107 then
                  if k == 5130575 then 113 else -1
                else
                  if k < 5132370 then
                    if k == 5132107 then 26 else -1
                  else
                    if k == 5132370 then 112 else -1
              else
                if k < 5197138 then
                  if k == 5134916 then 43 else -1
                else
                  if k < 5259586 then
                    if k == 5197138 then 115 else -1
                  else
                    if k == 5259586 then 117 else -1
        else
          if k < 5456210 then
            if k < 5265735 then
              if k < 5261392 then
                if k < 5261131 then
                  if k == 5260622 then 120 else -1
                else
                  if k == 5261131 then 118 else -1
              else
                if k < 5262162 then
                  if k == 5261392 then 121 else -1
                else
                  if k < 5262414 then
                    if k == 5262162 then 116 else -1
                  else
                    if k == 5262414 then 122 else -1
            else
              if k < 5395268 then
                if k < 5325138 then
                  if k == 5265735 then 119 else -1
                else
                  if k < 5394254 then
                    if k == 5325138 then 123 else -1
                  else
                    if k == 5394254 then 124 else -1
              else
                if k < 5395778 then
                  if k == 5395268 then 131 else -1
                else
                  if k < 5396294 then
                    if k == 5395778 then 125 else -1
                  else
                    if k == 5396294 then 126 else -1
          else
            if k < 5458000 then
              if k < 5456967 then
                if k < 5456452 then
                  if k == 5456210 then 130 else -1
                else
                  if k < 5456722 then
                    if k == 5456452 then 136 else -1
                  else
                    if k == 5456722 then 132 else -1
              else
                if k < 5457227 then
                  if k == 5456967 then 140 else -1
                else
                  if k < 5457732 then
                    if k == 5457227 then 142 else -1
                  else
                    if k == 5457732 then 134 else -1
            else
              if k < 5460548 then
                if k < 5459020 then
                  if k == 5458000 then 127 else -1
                else
                  if k < 5459795 then
                    if k == 5459020 then 133 else -1
                  else
                    if k == 5459795 then 137 else -1
              else
                if k < 5460816 then
                  if k == 5460548 then 141 else -1
                else
                  if k < 5461070 then
                    if k == 5460816 then 138 else -1
                  else
                    if k == 5461070 then 129 else -1
      else
        if k < 5657942 then
          if k < 5528147 then
            if k < 5524820 then
              if k < 5462604 then
                if k < 5462352 then
                  if k == 5461571 then 54 else -1
                else
                  if k == 5462352 then 145 else -1
              else
                if k < 5523522 then
                  if k == 5462604 then 56 else -1
                else
                  if k < 5524051 then
                    if k == 5523522 then 149 else -1
                  else
                    if k == 5524051 then 147 else -1
            else
              if k < 5526105 then
                if k < 5525060 then
                  if k == 5524820 then 154 else -1
                else
                  if k < 5525328 then
                    if k == 5525060 then 152 else -1
                  else
                    if k == 5525328 then 150 else -1
              else
                if k < 5526596 then
                  if k == 5526105 then 153 else -1
                else
                  if k < 5527364 then
                    if k == 5526596 then 151 else -1
                  else
                    if k == 5527364 then 146 else -1
          else
            if k < 5593417 then
              if k < 5588824 then
                if k < 5587272 then
                  if k == 5528147 then 148 else -1
                else
                  if k == 5587272 then 156 else -1
              else
                if k < 5591876 then
                  if k == 5588824 then 155 else -1
                else
                  if k < 5591886 then
                    if k == 5591876 then 4 else -1
                  else
                    if k == 5591886 then 158 else -1
            else
              if k < 5593683 then
                if k < 5593429 then
                  if k == 5593417 then 160 else -1
                else
                  if k < 5593431 then
                    if k == 5593429 then 159 else -1
                  else
                    if k == 5593431 then 161 else -1
              else
                if k < 5653843 then
                  if k == 5593683 then 162 else -1
                else
                  if k < 5656132 then
                    if k == 5653843 then 164 else -1
                  else
                    if k == 5656132 then 165 else -1
        else
          if k < 5787462 then
            if k < 5784129 then
              if k < 5783878 then
                if k < 5722964 then
                  if k == 5657942 then 163 else -1
                else
                  if k == 5722964 then 128 else -1
              else
                if k < 5783879 then
                  if k == 5783878 then 33 else -1
                else
                  if k < 5783893 then
                    if k == 5783879 then 178 else -1
                  else
                    if k == 5783893 then 175 else -1
            else
              if k < 5784132 then
                if k < 5784130 then
                  if k == 5784129 then 169 else -1
                else
                  if k < 5784131 then
                    if k == 5784130 then 170 else -1
                  else
                    if k == 5784131 then 171 else -1
              else
                if k < 5784388 then
                  if k == 5784132 then 172 else -1
                else
                  if k < 5784658 then
                    if k == 5784388 then 6 else -1
                  else
                    if k == 5784658 then 75 else -1
          else
            if k < 5788993 then
              if k < 5787732 then
                if k < 5787716 then
                  if k == 5787462 then 18 else -1
                else
                  if k < 5787718 then
                    if k == 5787716 then 176 else -1
                  else
                    if k == 5787718 then 60 else -1
              else
                if k < 5788501 then
                  if k == 5787732 then 177 else -1
                else
                  if k < 5788755 then
                    if k == 5788501 then 135 else -1
                  else
                    if k == 5788755 then 173 else -1
            else
              if k < 5914962 then
                if k < 5789784 then
                  if k == 5788993 then 103 else -1
                else
                  if k < 5850450 then
                    if k == 5789784 then 174 else -1
                  else
                    if k == 5850450 then 166 else -1
              else
                if k < 5918039 then
                  if k == 5914962 then 91 else -1
                else
                  if k < 5920588 then
                    if k == 5918039 then 167 else -1
                  else
                    if k == 5920588 then 168 else -1
  }

  /** Three upper-case ASCII letters, the form of every ISO 4217 alphabetic code. */
  predicate UpperCode(s: string)
  {
    |s| == 3 && 'A' <= s[0] <= 'Z' && 'A' <= s[1] <= 'Z' && 'A' <= s[2] <= 'Z'
  }

  lemma NumericCodesFrom0(i: nat)
    requires 0 <= i < 20
    ensures NumericRank(NumericCode(i)) == i && 8 <= NumericCode(i) <= 999
  {
  }

  lemma AlphabeticCodesFrom0(i: nat)
    requires 0 <= i < 20
    ensures CodeRank(AlphabeticCode(i)) == i
  {
  }

  lemma CodeFormsFrom0(i: nat)
    requires 0 <= i < 20
    ensures UpperCode(AlphabeticCode(i))
  {
  }

  lemma SymbolsFrom0(i: nat)
    requires 0 <= i < 20
    ensures Places(i) >= -1 && !(Symbol(i) == "" && NarrowSymbol(i) != "")
  {
  }

  lemma NumericCodesFrom20(i: nat)
    requires 20 <= i < 40
    ensures NumericRank(NumericCode(i)) == i && 8 <= NumericCode(i) <= 999
  {
  }

  lemma AlphabeticCodesFrom20(i: nat)
    requires 20 <= i < 40
    ensures CodeRank(AlphabeticCode(i)) == i
  {
  }

  lemma CodeFormsFrom20(i: nat)
    requires 20 <= i < 40
    ensures UpperCode(AlphabeticCode(i))
  {
  }

  lemma SymbolsFrom20(i: nat)
    requires 20 <= i < 40
    ensures Places(i) >= -1 && !(Symbol(i) == "" && NarrowSymbol(i) != "")
  {
  }

  lemma NumericCodesFrom40(i: nat)
    requires 40 <= i < 60
    ensures NumericRank(NumericCode(i)) == i && 8 <= NumericCode(i) <= 999
  {
  }

  lemma AlphabeticCodesFrom40(i: nat)
    requires 40 <= i < 60
    ensures CodeRank(AlphabeticCode(i)) == i
  {
  }

  lemma CodeFormsFrom40(i: nat)
    requires 40 <= i < 60
    ensures UpperCode(AlphabeticCode(i))
  {
  }

  lemma SymbolsFrom40(i: nat)
    requires 40 <= i < 60
    ensures Places(i) >= -1 && !(Symbol(i) == "" && NarrowSymbol(i) != "")
  {
  }

  lemma NumericCodesFrom60(i: nat)
    requires 60 <= i < 80
    ensures NumericRank(NumericCode(i)) == i && 8 <= NumericCode(i) <= 999
  {
  }

  lemma AlphabeticCodesFrom60(i: nat)
    requires 60 <= i < 80
    ensures CodeRank(AlphabeticCode(i)) == i
  {
  }

  lemma CodeFormsFrom60(i: nat)
    requires 60 <= i < 80
    ensures UpperCode(AlphabeticCode(i))
  {
  }

  lemma SymbolsFrom60(i: nat)
    requires 60 <= i < 80
    ensures Places(i) >= -1 && !(Symbol(i) == "" && NarrowSymbol(i) != "")
  {
  }

  lemma NumericCodesFrom80(i: nat)
    requires 80 <= i < 100
    ensures NumericRank(NumericCode(i)) == i && 8 <= NumericCode(i) <= 999
  {
  }

  lemma AlphabeticCodesFrom80(i: nat)
    requires 80 <= i < 100
    ensures CodeRank(AlphabeticCode(i)) == i
  {
  }

  lemma CodeFormsFrom80(i: nat)
    requires 80 <= i < 100
    ensures UpperCode(AlphabeticCode(i))
  {
  }

  lemma SymbolsFrom80(i: nat)
    requires 80 <= i < 100
    ensures Places(i) >= -1 && !(Symbol(i) == "" && NarrowSymbol(i) != "")
  {
  }

  lemma NumericCodesFrom100(i: nat)
    requires 100 <= i < 120
    ensures NumericRank(NumericCode(i)) == i && 8 <= NumericCode(i) <= 999
  {
  }

  lemma AlphabeticCodesFrom100(i: nat)
    requires 100 <= i < 120
    ensures CodeRank(AlphabeticCode(i)) == i
  {
  }

  lemma CodeFormsFrom100(i: nat)
    requires 100 <= i < 120
    ensures UpperCode(AlphabeticCode(i))
  {
  }

  lemma SymbolsFrom100(i: nat)
    requires 100 <= i < 120
    ensures Places(i) >= -1 && !(Symbol(i) == "" && NarrowSymbol(i) != "")
  {
  }

  lemma NumericCodesFrom120(i: nat)
    requires 120 <= i < 140
    ensures NumericRank(NumericCode(i)) == i && 8 <= NumericCode(i) <= 999
  {
  }

  lemma AlphabeticCodesFrom120(i: nat)
    requires 120 <= i < 140
    ensures CodeRank(AlphabeticCode(i)) == i
  {
  }

  lemma CodeFormsFrom120(i: nat)
    requires 120 <= i < 140
    ensures UpperCode(AlphabeticCode(i))
  {
  }

  lemma SymbolsFrom120(i: nat)
    requires 120 <= i < 140
    ensures Places(i) >= -1 && !(Symbol(i) == "" && NarrowSymbol(i) != "")
  {
  }

  lemma NumericCodesFrom140(i: nat)
    requires 140 <= i < 160
    ensures NumericRank(NumericCode(i)) == i && 8 <= NumericCode(i) <= 999
  {
  }

  lemma AlphabeticCodesFrom140(i: nat)
    requires 140 <= i < 160
    ensures CodeRank(AlphabeticCode(i)) == i
  {
  }

  lemma CodeFormsFrom140(i: nat)
    requires 140 <= i < 160
    ensures UpperCode(AlphabeticCode(i))
  {
  }

  lemma SymbolsFrom140(i: nat)
    requires 140 <= i < 160
    ensures Places(i) >= -1 && !(Symbol(i) == "" && NarrowSymbol(i) != "")
  {
  }

  lemma NumericCodesFrom160(i: nat)
    requires 160 <= i < 179
    ensures NumericRank(NumericCode(i)) == i && 8 <= NumericCode(i) <= 999
  {
  }

  lemma AlphabeticCodesFrom160(i: nat)
    requires 160 <= i < 179
    ensures CodeRank(AlphabeticCode(i)) == i
  {
  }

  lemma CodeFormsFrom160(i: nat)
    requires 160 <= i < 179
    ensures UpperCode(AlphabeticCode(i))
  {
  }

  lemma SymbolsFrom160(i: nat)
    requires 160 <= i < 179
    ensures Places(i) >= -1 && !(Symbol(i) == "" && NarrowSymbol(i) != "")
  {
  }

  /**
    What each row satisfies: its codes find it back in both indices, its
    alphabetic code is three upper-case letters, its numeric code has at most
    three digits, and its decimal places and symbols are well-formed.
  */
  lemma RowFacts(i: nat)
    requires i < Count
    ensures NumericRank(NumericCode(i)) == i && 8 <= NumericCode(i) <= 999
    ensures CodeRank(AlphabeticCode(i)) == i && UpperCode(AlphabeticCode(i))
    ensures Places(i) >= -1 && !(Symbol(i) == "" && NarrowSymbol(i) != "")
  {
    if i < 20 {
      NumericCodesFrom0(i);
      AlphabeticCodesFrom0(i);
      CodeFormsFrom0(i);
      SymbolsFrom0(i);
    } else if i < 40 {
      NumericCodesFrom20(i);
      AlphabeticCodesFrom20(i);
      CodeFormsFrom20(i);
      SymbolsFrom20(i);
    } else if i < 60 {
      NumericCodesFrom40(i);
      AlphabeticCodesFrom40(i);
      CodeFormsFrom40(i);
      SymbolsFrom40(i);
    } else if i < 80 {
      NumericCodesFrom60(i);
      AlphabeticCodesFrom60(i);
      CodeFormsFrom60(i);
      SymbolsFrom60(i);
    } else if i < 100 {
      NumericCodesFrom80(i);
      AlphabeticCodesFrom80(i);
      CodeFormsFrom80(i);
      SymbolsFrom80(i);
    } else if i < 120 {
      NumericCodesFrom100(i);
      AlphabeticCodesFrom100(i);
      CodeFormsFrom100(i);
      SymbolsFrom100(i);
    } else if i < 140 {
      NumericCodesFrom120(i);
      AlphabeticCodesFrom120(i);
      CodeFormsFrom120(i);
      SymbolsFrom120(i);
    } else if i < 160 {
      NumericCodesFrom140(i);
      AlphabeticCodesFrom140(i);
      CodeFormsFrom140(i);
      SymbolsFrom140(i);
    } else {
      NumericCodesFrom160(i);
      AlphabeticCodesFrom160(i);
      CodeFormsFrom160(i);
      SymbolsFrom160(i);
    }
  }
}
