/** Service-name enrichment. The Java scanner labels an open port from a fixed
    table, with a French fallback label; the native scanner first asks the
    system services database and then falls back to a switch over the same
    ports, with the fallback label "unknown". */
module ServiceNames {
  import opened Wrappers

  /** The Java scanner's port-to-application table, written as the union of
      the groups its initializer puts in turn; the keys of the groups are
      disjoint. */
  const PortToApplication: map<int, string> :=
    StandardProtocols + Databases + MiscellaneousServices + DesktopServices + OtherServices

  const StandardProtocols: map<int, string> := map[
    21 := "FTP", 22 := "SSH", 23 := "Telnet", 25 := "SMTP", 53 := "DNS",
    67 := "DHCP Server", 68 := "DHCP Client", 69 := "TFTP", 80 := "HTTP",
    110 := "POP3", 119 := "NNTP", 123 := "NTP", 143 := "IMAP", 161 := "SNMP",
    162 := "SNMP Trap", 389 := "LDAP", 443 := "HTTPS", 465 := "SMTPS",
    514 := "Syslog", 587 := "SMTP TLS", 636 := "LDAPS", 989 := "FTPS Data",
    990 := "FTPS Control", 993 := "IMAPS", 995 := "POP3S"
  ]

  const Databases: map<int, string> := map[
    1433 := "SQL Server", 1521 := "Oracle DB", 3306 := "MySQL",
    5432 := "PostgreSQL", 27017 := "MongoDB"
  ]

  const MiscellaneousServices: map<int, string> := map[
    3389 := "RDP", 5900 := "VNC", 6379 := "Redis", 8080 := "HTTP Proxy",
    8443 := "HTTPS Alt", 9000 := "SonarQube / PHP-FPM",
    9090 := "Prometheus / Openfire / Web Server"
  ]

  const DesktopServices: map<int, string> := map[
    631 := "IPP (Internet Printing Protocol)", 1716 := "KDE Connect",
    6463 := "Discord RPC", 17500 := "Dropbox LAN Sync", 17600 := "Dropbox",
    17603 := "Dropbox", 32777 := "Docker/Kubernetes Ephemeral Port",
    35729 := "LiveReload", 63342 := "JetBrains IDE Services"
  ]

  const OtherServices: map<int, string> := map[
    1883 := "MQTT", 8883 := "MQTT Secure", 25565 := "Minecraft Server",
    10000 := "Webmin"
  ]

  /** Label the Java scanner gives a port missing from the table. */
  const UnknownApplication := "Application inconnue"

  /** Label the native scanner gives a port it cannot name. */
  const UnknownService := "unknown"

  /** The Java lookup (`getOrDefault`): the table's label, or the fallback.
      The fallback is not itself a table label, so it marks exactly the
      ports the table does not know. */
  function Lookup(port: int): (application: string)
    ensures port in PortToApplication ==> application == PortToApplication[port]
    ensures application == UnknownApplication <==> port !in PortToApplication
  {
    SwitchAgreesWithTable(port);
    if port in PortToApplication then PortToApplication[port] else UnknownApplication
  }

  /** The native program's `switch`, with `None` standing for its `default`. */
  function SwitchLabel(port: int): (name: Option<string>)
    ensures name != Some(UnknownApplication) && name != Some(UnknownService)
  {
    match port
    case 21 => Some("FTP")
    case 22 => Some("SSH")
    case 23 => Some("Telnet")
    case 25 => Some("SMTP")
    case 53 => Some("DNS")
    case 67 => Some("DHCP Server")
    case 68 => Some("DHCP Client")
    case 69 => Some("TFTP")
    case 80 => Some("HTTP")
    case 110 => Some("POP3")
    case 119 => Some("NNTP")
    case 123 => Some("NTP")
    case 143 => Some("IMAP")
    case 161 => Some("SNMP")
    case 162 => Some("SNMP Trap")
    case 389 => Some("LDAP")
    case 443 => Some("HTTPS")
    case 465 => Some("SMTPS")
    case 514 => Some("Syslog")
    case 587 => Some("SMTP TLS")
    case 636 => Some("LDAPS")
    case 989 => Some("FTPS Data")
    case 990 => Some("FTPS Control")
    case 993 => Some("IMAPS")
    case 995 => Some("POP3S")
    case 1433 => Some("SQL Server")
    case 1521 => Some("Oracle DB")
    case 3306 => Some("MySQL")
    case 5432 => Some("PostgreSQL")
    case 27017 => Some("MongoDB")
    case 3389 => Some("RDP")
    case 5900 => Some("VNC")
    case 6379 => Some("Redis")
    case 8080 => Some("HTTP Proxy")
    case 8443 => Some("HTTPS Alt")
    case 9000 => Some("SonarQube / PHP-FPM")
    case 9090 => Some("Prometheus / Openfire / Web Server")
    case 631 => Some("IPP (Internet Printing Protocol)")
    case 1716 => Some("KDE Connect")
    case 6463 => Some("Discord RPC")
    case 17500 => Some("Dropbox LAN Sync")
    case 17600 => Some("Dropbox")
    case 17603 => Some("Dropbox")
    case 32777 => Some("Docker/Kubernetes Ephemeral Port")
    case 35729 => Some("LiveReload")
    case 63342 => Some("JetBrains IDE Services")
    case 1883 => Some("MQTT")
    case 8883 => Some("MQTT Secure")
    case 25565 => Some("Minecraft Server")
    case 10000 => Some("Webmin")
    case _ => None
  }

  lemma StandardProtocolsInSwitch(port: int)
    ensures port in StandardProtocols ==> SwitchLabel(port) == Some(StandardProtocols[port])
  {
    if port in StandardProtocols {
      assert port in {21, 22, 23, 25, 53, 67, 68, 69, 80, 110, 119, 123, 143, 161, 162,
                      389, 443, 465, 514, 587, 636, 989, 990, 993, 995};
    }
  }

  lemma DatabasesInSwitch(port: int)
    ensures port in Databases ==> SwitchLabel(port) == Some(Databases[port])
  {
  }

  lemma MiscellaneousServicesInSwitch(port: int)
    ensures port in MiscellaneousServices ==> SwitchLabel(port) == Some(MiscellaneousServices[port])
  {
  }

  lemma DesktopServicesInSwitch(port: int)
    ensures port in DesktopServices ==> SwitchLabel(port) == Some(DesktopServices[port])
  {
    if port in DesktopServices {
      assert port in {631, 1716, 6463, 17500, 17600, 17603, 32777, 35729, 63342};
    }
  }

  lemma OtherServicesInSwitch(port: int)
    ensures port in OtherServices ==> SwitchLabel(port) == Some(OtherServices[port])
  {
  }

  lemma SwitchCasesInGroups(port: int)
    ensures SwitchLabel(port).Some? ==>
      || port in StandardProtocols || port in Databases || port in MiscellaneousServices
      || port in DesktopServices || port in OtherServices
  {
  }

  lemma MergeLookup(a: map<int, string>, b: map<int, string>, port: int)
    ensures port in a + b <==> port in a || port in b
    ensures port in b ==> (a + b)[port] == b[port]
    ensures port in a && port !in b ==> (a + b)[port] == a[port]
  {
  }

  /** Every port of a group is in the table. */
  lemma GroupsInTable(port: int)
    ensures
      || port in StandardProtocols || port in Databases || port in MiscellaneousServices
      || port in DesktopServices || port in OtherServices
      ==> port in PortToApplication
  {
  }

  /** Every port of the table has its table label in the switch; the proof
      peels the groups off the union one at a time, last group first. */
  lemma TableInSwitch(port: int)
    requires port in PortToApplication
    ensures SwitchLabel(port) == Some(PortToApplication[port])
  {
    var m3 := StandardProtocols + Databases + MiscellaneousServices + DesktopServices;
    MergeLookup(m3, OtherServices, port);
    if port in OtherServices {
      OtherServicesInSwitch(port);
    } else {
      FirstFourGroupsInSwitch(port);
    }
  }

  lemma FirstFourGroupsInSwitch(port: int)
    requires port in StandardProtocols + Databases + MiscellaneousServices + DesktopServices
    ensures SwitchLabel(port)
         == Some((StandardProtocols + Databases + MiscellaneousServices + DesktopServices)[port])
  {
    var m2 := StandardProtocols + Databases + MiscellaneousServices;
    MergeLookup(m2, DesktopServices, port);
    if port in DesktopServices {
      DesktopServicesInSwitch(port);
    } else {
      FirstThreeGroupsInSwitch(port);
    }
  }

  lemma FirstThreeGroupsInSwitch(port: int)
    requires port in StandardProtocols + Databases + MiscellaneousServices
    ensures SwitchLabel(port) == Some((StandardProtocols + Databases + MiscellaneousServices)[port])
  {
    var m1 := StandardProtocols + Databases;
    MergeLookup(m1, MiscellaneousServices, port);
    MergeLookup(StandardProtocols, Databases, port);
    if port in MiscellaneousServices {
      MiscellaneousServicesInSwitch(port);
    } else if port in Databases {
      DatabasesInSwitch(port);
    } else {
      StandardProtocolsInSwitch(port);
    }
  }

  /** The switch names exactly the ports of the Java table, with the same
      labels, and no table label is a fallback label: the two scanners share
      one table and differ only in the fallback. */
  lemma SwitchAgreesWithTable(port: int)
    ensures SwitchLabel(port).Some? <==> port in PortToApplication
    ensures port in PortToApplication ==> SwitchLabel(port) == Some(PortToApplication[port])
    ensures port in PortToApplication ==>
      PortToApplication[port] != UnknownApplication && PortToApplication[port] != UnknownService
  {
    GroupsInTable(port);
    SwitchCasesInGroups(port);
    if port in PortToApplication {
      TableInSwitch(port);
    }
  }

  /** `getServiceName`: the system services database (`getservbyport`,
      supplied as `servicesDb`) wins; otherwise the switch label; otherwise
      "unknown". */
  function GetServiceName(port: int, servicesDb: int -> Option<string>): (name: string)
    ensures servicesDb(port).Some? ==> name == servicesDb(port).value
    ensures servicesDb(port).None? && port in PortToApplication ==> name == PortToApplication[port]
    ensures servicesDb(port).None? ==> (name == UnknownService <==> port !in PortToApplication)
  {
    SwitchAgreesWithTable(port);
    match servicesDb(port)
    case Some(systemName) => systemName
    case None => ValueOr(SwitchLabel(port), UnknownService)
  }

  /** With no system entry, the native label is the Java label, except that
      the Java fallback becomes "unknown". */
  lemma NativeLabelMatchesJavaLabel(port: int, servicesDb: int -> Option<string>)
    requires servicesDb(port).None?
    ensures GetServiceName(port, servicesDb)
         == if Lookup(port) == UnknownApplication then UnknownService else Lookup(port)
  {
    SwitchAgreesWithTable(port);
  }

  /** The Java lookup reads the native switch, with the Java fallback. */
  lemma LookupIsSwitchWithJavaFallback(port: int)
    ensures Lookup(port) == ValueOr(SwitchLabel(port), UnknownApplication)
  {
    SwitchAgreesWithTable(port);
  }

  lemma SwitchOnProtocolPorts()
    ensures SwitchLabel(22) == Some("SSH") && SwitchLabel(25) == Some("SMTP")
    ensures SwitchLabel(443) == Some("HTTPS") && SwitchLabel(80) == Some("HTTP")
  {
  }

  lemma SwitchOnOtherSamplePorts()
    ensures SwitchLabel(3306) == Some("MySQL") && SwitchLabel(27017) == Some("MongoDB")
    ensures SwitchLabel(17600) == Some("Dropbox") && SwitchLabel(17603) == Some("Dropbox")
  {
  }

  lemma SwitchOnUnlistedPorts()
    ensures SwitchLabel(8) == None && SwitchLabel(65535) == None
  {
  }

  /** Labels the Java lookup gives some well-known ports, and the fallback
      it gives ports outside the table. */
  lemma WellKnownLabels()
    ensures Lookup(22) == "SSH" && Lookup(25) == "SMTP" && Lookup(443) == "HTTPS"
    ensures Lookup(80) == "HTTP" && Lookup(3306) == "MySQL" && Lookup(27017) == "MongoDB"
    ensures Lookup(17600) == Lookup(17603) == "Dropbox"
    ensures Lookup(8) == UnknownApplication && Lookup(65535) == UnknownApplication
  {
    SwitchOnProtocolPorts();
    SwitchOnOtherSamplePorts();
    SwitchOnUnlistedPorts();
    LookupIsSwitchWithJavaFallback(22);
    LookupIsSwitchWithJavaFallback(25);
    LookupIsSwitchWithJavaFallback(443);
    LookupIsSwitchWithJavaFallback(80);
    LookupIsSwitchWithJavaFallback(3306);
    LookupIsSwitchWithJavaFallback(27017);
    LookupIsSwitchWithJavaFallback(17600);
    LookupIsSwitchWithJavaFallback(17603);
    LookupIsSwitchWithJavaFallback(8);
    LookupIsSwitchWithJavaFallback(65535);
  }

  /** The native scanner's labels for the same ports when the system
      database has no entry for them. */
  lemma NativeLabelsWithoutSystemEntry(servicesDb: int -> Option<string>)
    requires servicesDb(22) == None && servicesDb(443) == None && servicesDb(8) == None
    ensures GetServiceName(22, servicesDb) == "SSH"
    ensures GetServiceName(443, servicesDb) == "HTTPS"
    ensures GetServiceName(8, servicesDb) == UnknownService
  {
    SwitchOnProtocolPorts();
    SwitchOnUnlistedPorts();
  }
}
